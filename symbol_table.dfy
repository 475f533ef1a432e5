/**
 * Name-to-id resolution over the schema (P4Info) the client holds.
 *
 * Every lookup is a first-match linear search over the list of one kind of
 * object. The result is the sentinel InvalidId (0) when no schema is loaded
 * or when no object of that kind has the name; a real id of 0 therefore
 * cannot be told apart from "not found".
 */
module SymbolTable {
  import opened Base

  const InvalidId: uint32 := 0

  /** The id and name from the preamble every P4Info object starts with; alias, annotations and doc are left out. */
  datatype Preamble = Preamble(id: uint32, name: string)

  /** Unit a counter counts in. */
  datatype CounterUnit = Unspecified | Bytes | Packets | Both

  /** A counter array, with the kind-specific metadata findCounter hands back. */
  datatype Counter = Counter(preamble: Preamble, unit: CounterUnit, size: int)

  /**
   * The schema document. Tables, action profiles, actions and digests are
   * looked up by their preamble only; counters keep a unit and a size,
   * because findCounter returns the counter itself.
   */
  datatype P4Info = P4Info(
    tables: seq<Preamble>,
    actionProfiles: seq<Preamble>,
    actions: seq<Preamble>,
    digests: seq<Preamble>,
    counters: seq<Counter>)

  /** Some object of ps carries the name. */
  ghost predicate HasName(ps: seq<Preamble>, name: string)
  {
    exists i :: 0 <= i < |ps| && ps[i].name == name
  }

  /** Some counter of cs carries the name. */
  ghost predicate HasCounterNamed(cs: seq<Counter>, name: string)
  {
    exists i :: 0 <= i < |cs| && cs[i].preamble.name == name
  }

  /** Index i holds the first object of ps named name. */
  ghost predicate IsFirstMatch(ps: seq<Preamble>, name: string, i: int)
  {
    0 <= i < |ps| && ps[i].name == name &&
    forall j :: 0 <= j < i ==> ps[j].name != name
  }

  /** Index i holds the first counter of cs named name. */
  ghost predicate IsFirstCounter(cs: seq<Counter>, name: string, i: int)
  {
    0 <= i < |cs| && cs[i].preamble.name == name &&
    forall j :: 0 <= j < i ==> cs[j].preamble.name != name
  }

  /** The loop shared by tableId, actionProfileId, actionId and digestId. */
  function FirstId(ps: seq<Preamble>, name: string): (id: uint32)
    ensures !HasName(ps, name) ==> id == InvalidId
    ensures HasName(ps, name) ==>
              exists i :: IsFirstMatch(ps, name, i) && id == ps[i].id
    ensures id != InvalidId ==> exists i :: 0 <= i < |ps| && ps[i].name == name && ps[i].id == id
  {
    if |ps| == 0 then InvalidId
    else if ps[0].name == name then
      assert IsFirstMatch(ps, name, 0);
      ps[0].id
    else
      var id := FirstId(ps[1..], name);
      assert forall i :: 0 <= i < |ps[1..]| ==> ps[1..][i] == ps[i + 1];
      assert forall i :: IsFirstMatch(ps[1..], name, i) ==> IsFirstMatch(ps, name, i + 1);
      id
  }

  function TableId(schema: Option<P4Info>, name: string): (id: uint32)
    ensures schema.None? ==> id == InvalidId
    ensures schema.Some? ==> id == FirstId(schema.value.tables, name)
  {
    if schema.None? then InvalidId else FirstId(schema.value.tables, name)
  }

  function ActionProfileId(schema: Option<P4Info>, name: string): (id: uint32)
    ensures schema.None? ==> id == InvalidId
    ensures schema.Some? ==> id == FirstId(schema.value.actionProfiles, name)
  {
    if schema.None? then InvalidId else FirstId(schema.value.actionProfiles, name)
  }

  function ActionId(schema: Option<P4Info>, name: string): (id: uint32)
    ensures schema.None? ==> id == InvalidId
    ensures schema.Some? ==> id == FirstId(schema.value.actions, name)
  {
    if schema.None? then InvalidId else FirstId(schema.value.actions, name)
  }

  function DigestId(schema: Option<P4Info>, name: string): (id: uint32)
    ensures schema.None? ==> id == InvalidId
    ensures schema.Some? ==> id == FirstId(schema.value.digests, name)
  {
    if schema.None? then InvalidId else FirstId(schema.value.digests, name)
  }

  /** The search loop of findCounter, over one list of counters. */
  function FirstCounter(cs: seq<Counter>, name: string): (c: Option<Counter>)
    ensures c.None? <==> !HasCounterNamed(cs, name)
    ensures c.Some? ==> exists i :: IsFirstCounter(cs, name, i) && c.value == cs[i]
  {
    if |cs| == 0 then None
    else if cs[0].preamble.name == name then
      assert IsFirstCounter(cs, name, 0);
      Some(cs[0])
    else
      var c := FirstCounter(cs[1..], name);
      assert forall i :: 0 <= i < |cs[1..]| ==> cs[1..][i] == cs[i + 1];
      assert forall i :: IsFirstCounter(cs[1..], name, i) ==> IsFirstCounter(cs, name, i + 1);
      c
  }

  /** findCounter: nil (None) without a schema or when no counter has the name. */
  function FindCounter(schema: Option<P4Info>, name: string): (c: Option<Counter>)
    ensures schema.None? ==> c.None?
    ensures c.Some? ==> c.value.preamble.name == name
    ensures c.Some? ==> exists i :: IsFirstCounter(schema.value.counters, name, i) && c.value == schema.value.counters[i]
    ensures schema.Some? && HasCounterNamed(schema.value.counters, name) ==> c.Some?
  {
    if schema.None? then None else FirstCounter(schema.value.counters, name)
  }

  /** counterId: the id of the counter findCounter finds, InvalidId when it finds none. */
  function CounterId(schema: Option<P4Info>, name: string): (id: uint32)
    ensures FindCounter(schema, name).Some? ==> id == FindCounter(schema, name).value.preamble.id
    ensures FindCounter(schema, name).None? ==> id == InvalidId
    ensures schema.Some? && id != InvalidId ==>
              exists i :: 0 <= i < |schema.value.counters| &&
                schema.value.counters[i].preamble == Preamble(id, name)
  {
    var c := FindCounter(schema, name);
    if c.None? then InvalidId else c.value.preamble.id
  }

  /**
   * Objects appended after one already carrying the name never change the
   * answer: later duplicates are ignored.
   */
  lemma {:induction false} LaterDuplicatesIgnored(ps: seq<Preamble>, more: seq<Preamble>, name: string)
    requires HasName(ps, name)
    ensures FirstId(ps + more, name) == FirstId(ps, name)
  {
    if ps[0].name != name {
      var k :| 0 <= k < |ps| && ps[k].name == name;
      assert ps[1..][k - 1] == ps[k];
      assert (ps + more)[1..] == ps[1..] + more;
      LaterDuplicatesIgnored(ps[1..], more, name);
    }
  }

  /** Objects placed before the first one carrying the name decide nothing unless they carry it too. */
  lemma {:induction false} EarlierOthersSkipped(front: seq<Preamble>, ps: seq<Preamble>, name: string)
    requires forall i :: 0 <= i < |front| ==> front[i].name != name
    ensures FirstId(front + ps, name) == FirstId(ps, name)
  {
    if |front| > 0 {
      var whole := front + ps;
      assert whole[0] == front[0];
      assert whole[1..] == front[1..] + ps;
      assert FirstId(whole, name) == FirstId(whole[1..], name);
      EarlierOthersSkipped(front[1..], ps, name);
    } else {
      assert front + ps == ps;
    }
  }

  /** Each lookup consults its own kind only: a name listed only among actions resolves to InvalidId as a table. */
  lemma KindsAreSeparate(info: P4Info, name: string)
    requires !HasName(info.tables, name)
    ensures TableId(Some(info), name) == InvalidId
  {
  }

  /** A table whose real id is 0 resolves to the same value as a missing table. */
  lemma InvalidIdIsAmbiguous(name: string, other: string)
    requires name != other
    ensures TableId(Some(P4Info([Preamble(0, name)], [], [], [], [])), name)
         == TableId(Some(P4Info([Preamble(0, name)], [], [], [], [])), other)
  {
  }
}
