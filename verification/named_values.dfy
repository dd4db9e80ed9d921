/** Ordered name/value lists with first-match lookup. A response's
    `Set-Cookie` list and a call's metadata are both such lists: the source
    scans cookies in order and stops at the first whose name matches, and a
    metadata `get` returns the first value stored under a key. */
module NamedValues {
  import opened Outcomes

  /** One named value: a cookie, or one metadata entry. */
  datatype Entry = Entry(name: string, value: string)

  /** `i` is the position of the first entry called `name`. */
  ghost predicate IsFirstNamed(entries: seq<Entry>, name: string, i: int)
  {
    && 0 <= i < |entries|
    && entries[i].name == name
    && forall j :: 0 <= j < i ==> entries[j].name != name
  }

  /** Some entry is called `name`. */
  ghost predicate HasName(entries: seq<Entry>, name: string)
  {
    exists i :: 0 <= i < |entries| && entries[i].name == name
  }

  /** Position of the first entry called `name`, scanning front to back. */
  function IndexOfName(entries: seq<Entry>, name: string): (r: Option<nat>)
    ensures r.Some? ==> IsFirstNamed(entries, name, r.value)
    ensures r.None? ==> forall j :: 0 <= j < |entries| ==> entries[j].name != name
    decreases |entries|
  {
    if |entries| == 0 then None
    else if entries[0].name == name then Some(0)
    else
      match IndexOfName(entries[1..], name)
      case None => None
      case Some(k) => Some(k + 1)
  }

  /** Value of the first entry called `name`, if any. */
  function Lookup(entries: seq<Entry>, name: string): (r: Option<string>)
    ensures r.Some? <==> HasName(entries, name)
    ensures r.Some? ==> exists i :: IsFirstNamed(entries, name, i) && entries[i].value == r.value
  {
    match IndexOfName(entries, name)
    case None => None
    case Some(i) => assert IsFirstNamed(entries, name, i); Some(entries[i].value)
  }

  /** An entry in front of the list decides the lookup of its own name, and
      leaves the lookup of every other name to the rest of the list. */
  lemma LookupCons(e: Entry, rest: seq<Entry>, name: string)
    ensures Lookup([e] + rest, name) == if e.name == name then Some(e.value) else Lookup(rest, name)
  {
    assert ([e] + rest)[1..] == rest;
  }
}
