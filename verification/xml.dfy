/** The element tree the invoice is built as, in the shape lxml gives it: every
    element has a qualified tag, attributes in insertion order, a text value
    (`""` when none is set) and an ordered list of child elements. The
    readers below (`Find`, `At`, `TextAt`, `AttrOf`) answer the questions a
    consumer of the document asks, independently of how the tree was built. */
module Xml {
  import opened Wrappers
  import opened Vocabulary
  import opened Amounts

  datatype QName = QName(ns: Ns, local: Local)

  datatype Attr = Attr(name: AttrName, value: string)

  datatype Element = Element(tag: QName, attrs: seq<Attr>, text: string, children: seq<Element>)

  function CbcTag(local: Local): QName {
    QName(Cbc, local)
  }

  function CacTag(local: Local): QName {
    QName(Cac, local)
  }

  /** An element holding only text. */
  function Leaf(tag: QName, text: string): Element {
    Element(tag, [], text, [])
  }

  /** An element holding only child elements. */
  function Node(tag: QName, children: seq<Element>): Element {
    Element(tag, [], "", children)
  }

  /** A monetary leaf: its text and a `currencyID` attribute. */
  function Money(tag: QName, currency: string, text: string): Element {
    Element(tag, [Attr(CurrencyId, currency)], text, [])
  }

  /** Appends children at the end, as `SubElement` does. */
  function Append(e: Element, more: seq<Element>): Element {
    e.(children := e.children + more)
  }

  function Tags(es: seq<Element>): (ts: seq<QName>)
    ensures |ts| == |es|
  {
    seq(|es|, i requires 0 <= i < |es| => es[i].tag)
  }

  /** `Tags` lists each element's tag, position by position. */
  lemma TagsIndex(es: seq<Element>)
    ensures |Tags(es)| == |es| && forall i :: 0 <= i < |es| ==> Tags(es)[i] == es[i].tag
  {
  }

  /** `Tags` of short literal lists, element by element. */
  lemma Tags1(a: Element)
    ensures Tags([a]) == [a.tag]
  {
  }

  lemma Tags2(a: Element, b: Element)
    ensures Tags([a, b]) == [a.tag, b.tag]
  {
  }

  lemma Tags3(a: Element, b: Element, c: Element)
    ensures Tags([a, b, c]) == [a.tag, b.tag, c.tag]
  {
  }

  lemma Tags4(a: Element, b: Element, c: Element, d: Element)
    ensures Tags([a, b, c, d]) == [a.tag, b.tag, c.tag, d.tag]
  {
  }

  lemma Tags6(a: Element, b: Element, c: Element, d: Element, e: Element, f: Element)
    ensures Tags([a, b, c, d, e, f]) == [a.tag, b.tag, c.tag, d.tag, e.tag, f.tag]
  {
  }

  lemma TagsAppend(a: seq<Element>, b: seq<Element>)
    ensures Tags(a + b) == Tags(a) + Tags(b)
  {
  }

  /** Position of the first element with `tag`. */
  function FirstIndex(es: seq<Element>, tag: QName): (k: Option<nat>)
    ensures k.Some? ==> k.value < |es| && es[k.value].tag == tag
    ensures k.Some? ==> forall j :: 0 <= j < k.value ==> es[j].tag != tag
    ensures k.None? <==> forall j :: 0 <= j < |es| ==> es[j].tag != tag
  {
    if |es| == 0 then None
    else if es[0].tag == tag then Some(0)
    else
      match FirstIndex(es[1..], tag)
      case Some(j) => Some(j + 1)
      case None => None
  }

  /** The first element of `es` with `tag`. */
  function FindIn(es: seq<Element>, tag: QName): Option<Element> {
    match FirstIndex(es, tag)
    case Some(k) => Some(es[k])
    case None => None
  }

  /** lxml's `e.find(tag)`: the first child with that tag. */
  function Find(e: Element, tag: QName): Option<Element> {
    FindIn(e.children, tag)
  }

  /** `FindIn` returns the element at `k` when it is the first with that tag. */
  lemma FindInFirst(es: seq<Element>, k: nat, tag: QName)
    requires k < |es| && es[k].tag == tag
    requires forall j :: 0 <= j < k ==> es[j].tag != tag
    ensures FindIn(es, tag) == Some(es[k])
  {
  }

  /** Searching a concatenation searches the front part first. */
  lemma {:induction false} FindInAppend(a: seq<Element>, b: seq<Element>, tag: QName)
    ensures FindIn(a + b, tag) == if FindIn(a, tag).Some? then FindIn(a, tag) else FindIn(b, tag)
  {
    match FirstIndex(a, tag)
    case Some(k) =>
      FindInFirst(a + b, k, tag);
    case None =>
      match FirstIndex(b, tag)
      case Some(k) =>
        FindInFirst(a + b, |a| + k, tag);
      case None =>
        assert forall j :: 0 <= j < |a + b| ==> (a + b)[j].tag != tag by {
          forall j | 0 <= j < |a + b|
            ensures (a + b)[j].tag != tag
          {
            if j >= |a| {
              assert (a + b)[j] == b[j - |a|];
            }
          }
        }
  }

  /** The text of the first child with `tag`. */
  function ChildText(e: Element, tag: QName): Option<string> {
    match Find(e, tag)
    case Some(c) => Some(c.text)
    case None => None
  }

  /** Follows a path of child tags, taking the first match at each step. */
  function At(e: Element, path: seq<QName>): Option<Element>
    decreases |path|
  {
    if |path| == 0 then Some(e)
    else
      match Find(e, path[0])
      case Some(c) => At(c, path[1..])
      case None => None
  }

  /** `Find` returns the child at `k` when it is the first with that tag. */
  lemma FindFirst(e: Element, k: nat, tag: QName)
    requires k < |e.children| && e.children[k].tag == tag
    requires forall j :: 0 <= j < k ==> e.children[j].tag != tag
    ensures Find(e, tag) == Some(e.children[k])
    ensures ChildText(e, tag) == Some(e.children[k].text)
    ensures At(e, [tag]) == Some(e.children[k])
    ensures TextAt(e, [tag]) == Some(e.children[k].text)
  {
    FindInFirst(e.children, k, tag);
    AtCons(e, tag, []);
    assert [tag] + [] == [tag];
  }

  /** A path walks one `Find` at a time. */
  lemma AtCons(e: Element, t: QName, rest: seq<QName>)
    ensures At(e, [t] + rest)
         == match Find(e, t) case Some(c) => At(c, rest) case None => None
  {
    assert ([t] + rest)[0] == t;
    assert ([t] + rest)[1..] == rest;
  }

  /** A two-step path, each step the first child with its tag. */
  lemma FindFirst2(e: Element, k: nat, t1: QName, j: nat, t2: QName)
    requires k < |e.children| && e.children[k].tag == t1
    requires forall i :: 0 <= i < k ==> e.children[i].tag != t1
    requires j < |e.children[k].children| && e.children[k].children[j].tag == t2
    requires forall i :: 0 <= i < j ==> e.children[k].children[i].tag != t2
    ensures At(e, [t1, t2]) == Some(e.children[k].children[j])
    ensures TextAt(e, [t1, t2]) == Some(e.children[k].children[j].text)
  {
    FindFirst(e, k, t1);
    FindFirst(e.children[k], j, t2);
    AtCons(e, t1, [t2]);
    assert [t1] + [t2] == [t1, t2];
  }

  /** When the children's tags are `ts` and `ts[k]` does not occur before
      position `k`, looking up `ts[k]` finds child `k`. */
  lemma FindByTags(e: Element, ts: seq<QName>, k: nat)
    requires Tags(e.children) == ts && k < |ts| && ts[k] !in ts[..k]
    ensures Find(e, ts[k]) == Some(e.children[k])
    ensures ChildText(e, ts[k]) == Some(e.children[k].text)
    ensures At(e, [ts[k]]) == Some(e.children[k])
    ensures TextAt(e, [ts[k]]) == Some(e.children[k].text)
  {
    TagsIndex(e.children);
    forall j | 0 <= j < k
      ensures e.children[j].tag != ts[k]
    {
      assert ts[j] in ts[..k];
    }
    FindFirst(e, k, ts[k]);
  }

  /** The two-step form of `FindByTags`. */
  lemma FindByTags2(e: Element, ts: seq<QName>, k: nat, us: seq<QName>, j: nat)
    requires Tags(e.children) == ts && k < |ts| && ts[k] !in ts[..k]
    requires Tags(e.children[k].children) == us && j < |us| && us[j] !in us[..j]
    ensures At(e, [ts[k], us[j]]) == Some(e.children[k].children[j])
    ensures TextAt(e, [ts[k], us[j]]) == Some(e.children[k].children[j].text)
  {
    FindByTags(e, ts, k);
    FindByTags(e.children[k], us, j);
    AtCons(e, ts[k], [us[j]]);
    assert [ts[k]] + [us[j]] == [ts[k], us[j]];
  }

  /** The three-step form of `FindByTags`. */
  lemma FindByTags3(e: Element, ts: seq<QName>, k: nat, us: seq<QName>, j: nat, vs: seq<QName>, m: nat)
    requires Tags(e.children) == ts && k < |ts| && ts[k] !in ts[..k]
    requires Tags(e.children[k].children) == us && j < |us| && us[j] !in us[..j]
    requires Tags(e.children[k].children[j].children) == vs && m < |vs| && vs[m] !in vs[..m]
    ensures At(e, [ts[k], us[j], vs[m]]) == Some(e.children[k].children[j].children[m])
    ensures TextAt(e, [ts[k], us[j], vs[m]]) == Some(e.children[k].children[j].children[m].text)
  {
    FindByTags(e, ts, k);
    FindByTags2(e.children[k], us, j, vs, m);
    AtCons(e, ts[k], [us[j], vs[m]]);
    assert [ts[k]] + [us[j], vs[m]] == [ts[k], us[j], vs[m]];
  }

  /** A tag that no child carries is not found. */
  lemma FindAbsent(e: Element, ts: seq<QName>, t: QName)
    requires Tags(e.children) == ts && t !in ts
    ensures Find(e, t).None? && ChildText(e, t).None?
    ensures forall rest :: At(e, [t] + rest).None?
  {
    TagsIndex(e.children);
    assert forall j :: 0 <= j < |e.children| ==> e.children[j].tag != t by {
      forall j | 0 <= j < |e.children|
        ensures e.children[j].tag != t
      {
        assert ts[j] in ts;
      }
    }
    forall rest
      ensures At(e, [t] + rest).None?
    {
      AtCons(e, t, rest);
    }
  }

  /** The text of the element reached by `path`. */
  function TextAt(e: Element, path: seq<QName>): Option<string> {
    match At(e, path)
    case Some(c) => Some(c.text)
    case None => None
  }

  /** lxml's `e.get(name)`. */
  function AttrOf(e: Element, name: AttrName): Option<string>
    decreases |e.attrs|
  {
    if |e.attrs| == 0 then None
    else if e.attrs[0].name == name then Some(e.attrs[0].value)
    else AttrOf(e.(attrs := e.attrs[1..]), name)
  }

  /** The attribute `name` of the element reached by `path`. */
  function AttrAt(e: Element, path: seq<QName>, name: AttrName): Option<string> {
    match At(e, path)
    case Some(c) => AttrOf(c, name)
    case None => None
  }

  /** The amount, in signed cents, printed at `path`. */
  function AmountAt(e: Element, path: seq<QName>): Option<int> {
    match TextAt(e, path)
    case Some(t) => ParseAmount(t)
    case None => None
  }

  function CountTag(es: seq<Element>, tag: QName): nat {
    if |es| == 0 then 0
    else (if es[0].tag == tag then 1 else 0) + CountTag(es[1..], tag)
  }

  /** Every monetary element of the subtree declares `currencyID` = `cur`. */
  predicate PricedIn(e: Element, cur: string)
    decreases e
  {
    && (IsMonetary(e.tag.local) ==> AttrOf(e, CurrencyId) == Some(cur))
    && forall i :: 0 <= i < |e.children| ==> PricedIn(e.children[i], cur)
  }

  /** A monetary leaf is priced in its own currency. */
  lemma MoneyPriced(tag: QName, cur: string, text: string)
    ensures PricedIn(Money(tag, cur, text), cur)
  {
  }

  /** A childless element that is not monetary is priced in any currency. */
  lemma BarePriced(e: Element, cur: string)
    requires !IsMonetary(e.tag.local) && |e.children| == 0
    ensures PricedIn(e, cur)
  {
  }

  /** A non-monetary element is priced when its children are. */
  lemma NodePriced(e: Element, cur: string)
    requires !IsMonetary(e.tag.local)
    requires forall i :: 0 <= i < |e.children| ==> PricedIn(e.children[i], cur)
    ensures PricedIn(e, cur)
  {
  }
}
