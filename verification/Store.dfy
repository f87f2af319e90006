/** Two directory scans of src/state/store.c: reference resolution and reconciliation.

    A scan walks `order`, what readdir returned for the containers directory: every entry
    once, in any order, "." and ".." included. The files that it cannot read at that moment
    belong to the entries `unread`; it passes over them as if they were not there. */
module Store {
  import opened Base
  import opened Leases
  import opened Processes

  /** Container directories are named by 32 characters and never start with a dot. */
  predicate Eligible(entry: string) {
    |entry| == 32 && entry[0] != '.'
  }

  function Entries(order: seq<string>): set<string> {
    if order == [] then {} else Entries(order[..|order| - 1]) + {order[|order| - 1]}
  }

  predicate Distinct(order: seq<string>) {
    order == [] ||
    (order[|order| - 1] !in Entries(order[..|order| - 1]) && Distinct(order[..|order| - 1]))
  }

  lemma {:induction false} Advance(order: seq<string>, index: nat)
    requires index < |order| && Distinct(order)
    ensures Distinct(order[..index + 1])
    ensures order[index] !in Entries(order[..index])
    ensures Entries(order[..index + 1]) == Entries(order[..index]) + {order[index]}
    decreases |order| - index
  {
    assert order[..index + 1][..index] == order[..index];
    if index + 1 == |order| {
      assert order[..index + 1] == order;
    } else {
      Advance(order, index + 1);
      assert order[..index + 2][..index + 1] == order[..index + 1];
    }
  }

  // ---------------------------------------------------------------- mc_state_resolve

  datatype Resolution = Found(id: string) | Missing | Ambiguous

  predicate Refers(configs: map<string, Config>, entry: string, reference: string) {
    && Eligible(entry)
    && (reference <= entry || (entry in configs && configs[entry].name == Some(reference)))
  }

  function Referents(entries: set<string>, configs: map<string, Config>, reference: string): set<string> {
    set entry | entry in entries && Refers(configs, entry, reference)
  }

  ghost predicate Resolves(r: Resolution, entries: set<string>, configs: map<string, Config>, reference: string) {
    var referents := Referents(entries, configs, reference);
    match r
    case Missing => reference == [] || referents == {}
    case Found(id) => reference != [] && referents == {id}
    case Ambiguous => reference != [] && |referents| > 1
  }

  lemma ReferentsExtend(visited: set<string>, entry: string, configs: map<string, Config>, reference: string)
    ensures Referents(visited + {entry}, configs, reference) ==
            Referents(visited, configs, reference) + if Refers(configs, entry, reference) then {entry} else {}
  {}

  /** The scan: how many entries the reference denotes, and the one seen last. */
  method CountReferents(order: seq<string>, configs: map<string, Config>, unread: set<string>, reference: string)
    returns (matches: nat, id: string)
    requires Distinct(order)
    ensures matches == |Referents(Entries(order), configs - unread, reference)|
    ensures matches > 0 ==> id in Referents(Entries(order), configs - unread, reference)
  {
    matches, id := 0, "";
    var readable := configs - unread;
    ghost var visited, referents: set<string> := {}, {};
    for index := 0 to |order|
      invariant visited == Entries(order[..index]) && referents == Referents(visited, readable, reference)
      invariant matches == |referents|
      invariant matches > 0 ==> id in referents
    {
      Advance(order, index);
      ReferentsExtend(visited, order[index], readable, reference);
      visited := visited + {order[index]};
      if Refers(readable, order[index], reference) {
        id, matches, referents := order[index], matches + 1, referents + {order[index]};
      }
    }
    assert order[..|order|] == order;
  }

  /** The three outcomes of Resolves exclude each other, so the result does not depend on the
      order of the listing. */
  method Resolve(order: seq<string>, configs: map<string, Config>, unread: set<string>, reference: string)
    returns (r: Resolution)
    requires Distinct(order)
    ensures Resolves(r, Entries(order), configs - unread, reference)
  {
    if reference == [] { return Missing; }
    var matches, id := CountReferents(order, configs, unread, reference);
    if matches == 1 { Singleton(Referents(Entries(order), configs - unread, reference), id); }
    r := if matches == 1 then Found(id) else if matches == 0 then Missing else Ambiguous;
  }

  lemma ResolutionIsUnique(r: Resolution, r': Resolution, entries: set<string>, configs: map<string, Config>,
                           reference: string)
    requires Resolves(r, entries, configs, reference) && Resolves(r', entries, configs, reference)
    ensures r == r'
  {
    var referents := Referents(entries, configs, reference);
    assert forall id :: referents == {id} ==> |referents| == 1 && id in referents;
  }

  lemma TwoOf(s: set<string>)
    requires |s| > 1
    ensures exists a, b :: a in s && b in s && a != b
  {
    var a :| a in s;
    assert |s - {a}| > 0;
    var b :| b in s - {a};
  }

  /** What a reference denotes: the visible entries of 32 characters whose id it begins or whose
      name it is. One of them is the answer, none is missing, several are ambiguous. */
  lemma ResolutionMeaning(r: Resolution, entries: set<string>, configs: map<string, Config>, reference: string)
    requires Resolves(r, entries, configs, reference)
    ensures reference == [] ==> r == Missing
    ensures reference != [] ==>
              var denoted := set entry | entry in entries && |entry| == 32 && entry[0] != '.' &&
                                 (reference <= entry || (entry in configs && configs[entry].name == Some(reference)));
              match r
              case Missing => denoted == {}
              case Found(id) => denoted == {id}
              case Ambiguous => exists a, b :: a in denoted && b in denoted && a != b
  {
    var denoted := set entry | entry in entries && |entry| == 32 && entry[0] != '.' &&
                       (reference <= entry || (entry in configs && configs[entry].name == Some(reference)));
    assert denoted == Referents(entries, configs, reference);
    if r.Ambiguous? {
      TwoOf(denoted);
    }
  }

  lemma Singleton(s: set<string>, x: string)
    requires |s| == 1 && x in s
    ensures s == {x}
  {
    assert |s - {x}| == 0;
  }

  /** With unique names, a name resolves to its bearer exactly when it begins no other
      container's id, and its bearer's configuration can be read or it begins the bearer's id. */
  lemma NameResolvesToBearer(entries: set<string>, configs: map<string, Config>, unread: set<string>,
                             bearer: string, name: string)
    requires DistinctNames(configs) && bearer in entries && Eligible(bearer)
    requires bearer in configs && configs[bearer].name == Some(name)
    ensures Referents(entries, configs - unread, name) == {bearer} <==>
            && (bearer !in unread || name <= bearer)
            && forall other :: other in entries && Eligible(other) && other != bearer ==> !(name <= other)
  {
    var referents := Referents(entries, configs - unread, name);
    if referents == {bearer} {
      assert bearer in referents;
      forall other | other in entries && Eligible(other) && other != bearer ensures !(name <= other) {
        assert other !in referents;
      }
    }
  }

  /** A full id resolves to itself exactly when no other container that can be read bears it as a
      name. */
  lemma IdResolvesToItself(entries: set<string>, configs: map<string, Config>, unread: set<string>, id: string)
    requires id in entries && Eligible(id)
    ensures Referents(entries, configs - unread, id) == {id} <==>
            forall other :: other in entries && Eligible(other) && other != id && other in configs - unread ==>
                              configs[other].name != Some(id)
  {
    var referents := Referents(entries, configs - unread, id);
    forall other: string | |other| == 32 && id <= other ensures other == id {
      assert other[..|id|] == other;
    }
    if referents == {id} {
      forall other | other in entries && Eligible(other) && other != id && other in configs - unread
        ensures configs[other].name != Some(id)
      {
        assert other !in referents;
      }
    }
  }

  // ---------------------------------------------------------------- mc_state_reconcile

  /** A state.json document; any field may be missing, and `rest` holds the fields that
      reconciliation neither reads nor sets. */
  datatype Document = Document(
    status: Option<string>, shimPid: Option<int>, shimStart: Option<int>, initPid: Option<int>,
    exitCode: Option<int>, cgroupPath: Option<string>, rest: map<string, string>)

  /** The records that reconciliation rewrites. */
  predicate Stale(document: Document, processes: Table) {
    && document.status == Some("running")
    && document.shimPid.Some? && document.shimStart.Some?
    && !Alive(processes, document.shimPid.value, document.shimStart.value)
  }

  /** The rewrite keeps the recorded start time and every field it does not know. */
  function Repaired(document: Document): Document {
    document.(status := Some("stopped"), shimPid := Some(0), initPid := Some(0), exitCode := Some(125),
              cgroupPath := Some(""))
  }

  /** What a sweep that deals with `entries` makes of one record. */
  function SweptRecord(entry: string, document: Document, processes: Table, entries: set<string>): Document {
    if entry in entries && Eligible(entry) && Stale(document, processes) then Repaired(document) else document
  }

  ghost function Swept(states: map<string, Document>, processes: Table, entries: set<string>): map<string, Document> {
    map entry | entry in states :: SweptRecord(entry, states[entry], processes, entries)
  }

  /** The state.json and config.json files, by container directory. */
  class Registry {
    var states: map<string, Document>
    var configs: map<string, Config>

    /** mc_write_atomic may fail before or after the file has been replaced. */
    method WriteState(entry: string, document: Document) returns (ok: bool)
      modifies this`states
      ensures states == old(states)[entry := document] || (!ok && states == old(states))
    {
      states := states[entry := document];
      ok := true;
    }

    /** The loop body: one entry, rewritten if it can be read and is stale. */
    method Visit(entry: string, processes: Table, readable: bool) returns (ok: bool, rewritten: bool)
      modifies this`states
      ensures rewritten <==> readable && Swept(old(states), processes, {entry}) != old(states)
      ensures !readable ==> ok && states == old(states)
      ensures ok && readable ==> states == Swept(old(states), processes, {entry})
      ensures !ok ==> states == old(states) || states == Swept(old(states), processes, {entry})
    {
      ok, rewritten := true, Eligible(entry) && readable && entry in states && Stale(states[entry], processes);
      if rewritten {
        ok := WriteState(entry, Repaired(states[entry]));
      }
      SweepOfOne(old(states), processes, entry);
    }

    /** Visits entries until one cannot be written; `dealt` are the entries dealt with, the
        failing one included if its file was replaced before the failure. */
    method Reconcile(order: seq<string>, processes: Table, unread: set<string>)
      returns (ok: bool, repaired: nat, ghost dealt: set<string>)
      requires Distinct(order)
      modifies this`states
      ensures exists k :: 0 <= k <= |order| && dealt == Entries(order[..k]) - unread
      ensures ok ==> dealt == Entries(order) - unread
      ensures states == Swept(old(states), processes, dealt)
      ensures ok ==> repaired == |Changed(old(states), states)|
    {
      repaired, dealt := 0, {};
      for index := 0 to |order|
        invariant dealt == Entries(order[..index]) - unread
        invariant states == Swept(old(states), processes, dealt)
        invariant repaired == |StaleEntries(old(states), processes, dealt)|
      {
        var entry := order[index];
        Advance(order, index);
        SweepOfOne(states, processes, entry);
        SweepExtend(old(states), processes, dealt, entry);
        StaleExtend(old(states), processes, dealt, entry);
        ghost var before, widened := states, if entry in unread then dealt else dealt + {entry};
        assert widened == Entries(order[..index + 1]) - unread;
        var written, rewritten := Visit(entry, processes, entry !in unread);
        if !written {
          dealt := if states == before then dealt else widened;
          return false, repaired, dealt;
        }
        repaired, dealt := if rewritten then repaired + 1 else repaired, widened;
      }
      assert order[..|order|] == order;
      StaleIsChanged(old(states), processes, dealt);
      ok := true;
    }
  }

  /** The entries whose record differs. */
  ghost function Changed(before: map<string, Document>, after: map<string, Document>): set<string> {
    set entry | entry in before && entry in after && before[entry] != after[entry]
  }

  lemma SweepOfOne(states: map<string, Document>, processes: Table, entry: string)
    ensures var stale := entry in states && Eligible(entry) && Stale(states[entry], processes);
            && Swept(states, processes, {entry}) ==
                 (if stale then states[entry := Repaired(states[entry])] else states)
            && (stale <==> Swept(states, processes, {entry}) != states)
  {
    if entry in states && Eligible(entry) && Stale(states[entry], processes) {
      assert Swept(states, processes, {entry})[entry].status == Some("stopped");
      assert Swept(states, processes, {entry}) == states[entry := Repaired(states[entry])];
    } else {
      assert Swept(states, processes, {entry}) == states;
    }
  }

  lemma StaleIsChanged(states: map<string, Document>, processes: Table, entries: set<string>)
    ensures StaleEntries(states, processes, entries) == Changed(states, Swept(states, processes, entries))
  {
    forall entry | entry in states
      ensures entry in StaleEntries(states, processes, entries) <==>
              entry in Changed(states, Swept(states, processes, entries))
    {
      assert Repaired(states[entry]).status == Some("stopped");
    }
  }

  lemma SweepExtend(states: map<string, Document>, processes: Table, dealt: set<string>, entry: string)
    requires entry !in dealt
    ensures Swept(Swept(states, processes, dealt), processes, {entry}) == Swept(states, processes, dealt + {entry})
  {
    var once, all := Swept(states, processes, dealt), Swept(states, processes, dealt + {entry});
    forall e | e in states ensures SweptRecord(e, once[e], processes, {entry}) == all[e] {
    }
  }

  lemma StaleExtend(states: map<string, Document>, processes: Table, dealt: set<string>, entry: string)
    requires entry !in dealt
    ensures var before := Swept(states, processes, dealt);
            |StaleEntries(states, processes, dealt + {entry})| ==
            |StaleEntries(states, processes, dealt)| +
              if entry in before && Eligible(entry) && Stale(before[entry], processes) then 1 else 0
  {
    assert StaleEntries(states, processes, dealt + {entry}) == StaleEntries(states, processes, dealt) +
             if entry in states && Eligible(entry) && Stale(states[entry], processes) then {entry} else {};
  }

  ghost function StaleEntries(states: map<string, Document>, processes: Table, entries: set<string>): set<string> {
    set entry | entry in states && entry in entries && Eligible(entry) && Stale(states[entry], processes)
  }

  /** What a sweep makes of each record, by what it says and by the process table: a running record
      of a visible entry dealt with, with the pid and start time of a shim that the table does not
      show, is stopped; every other record is untouched. */
  lemma SweptExactly(states: map<string, Document>, processes: Table, entries: set<string>, entry: string)
    requires entry in states
    ensures var before, after := states[entry], Swept(states, processes, entries)[entry];
            if |entry| == 32 && entry[0] != '.' && entry in entries && before.status == Some("running") &&
               before.shimPid.Some? && before.shimStart.Some? &&
               !(before.shimPid.value > 0 && before.shimStart.value > 0 && before.shimPid.value in processes &&
                 processes[before.shimPid.value] == before.shimStart.value)
            then
              && after.status == Some("stopped") && after.shimPid == Some(0) && after.initPid == Some(0)
              && after.exitCode == Some(125) && after.cgroupPath == Some("")
              && after.shimStart == before.shimStart && after.rest == before.rest
            else after == before
  {
  }

  /** A sweep interrupted after any prefix and then rerun in full, in any order, ends where an
      uninterrupted one ends; in particular a second sweep changes nothing. */
  lemma InterruptedSweepConverges(states: map<string, Document>, processes: Table, prefix: set<string>,
                                  all: set<string>)
    requires prefix <= all
    ensures Swept(Swept(states, processes, prefix), processes, all) == Swept(states, processes, all)
    ensures Swept(Swept(states, processes, all), processes, all) == Swept(states, processes, all)
  {
    forall entry | entry in states ensures !Stale(Repaired(states[entry]), processes) {
      assert Repaired(states[entry]).status != Some("running");
    }
  }
}
