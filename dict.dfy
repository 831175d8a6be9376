/**
 * The dictionary store (src/store/modules/dict/index.ts): one bulk fetch of all
 * dictionaries, folded into a code -> details mapping that replaces the old one.
 */
module Dict {
  import opened Wrappers

  /** One entry of a dictionary (Api.SystemManage.DictDetail). */
  datatype DictDetail = DictDetail(code: string, labelText: string)

  /** A fetched dictionary; `details` may be null or missing. */
  datatype Dictionary = Dictionary(code: string, details: Option<seq<DictDetail>>)

  /** `dict?.details` is truthy: the element is not null and has details (an empty array counts). */
  predicate Contributes(d: Option<Dictionary>)
  {
    d.Some? && d.value.details.Some?
  }

  /** One step of the `forEach`: `mapping[dict.code] = dict.details` when the dictionary contributes. */
  function Insert(mapping: map<string, seq<DictDetail>>, d: Option<Dictionary>): (r: map<string, seq<DictDetail>>)
    ensures r.Keys == mapping.Keys + (if Contributes(d) then {d.value.code} else {})
    ensures Contributes(d) ==> r[d.value.code] == d.value.details.value
    ensures forall k :: k in mapping && !(Contributes(d) && k == d.value.code) ==> r[k] == mapping[k]
  {
    if Contributes(d) then mapping[d.value.code := d.value.details.value] else mapping
  }

  /** The mapping built from the fetched list, folding from the first element to the last. */
  function Snapshot(dicts: seq<Option<Dictionary>>): (r: map<string, seq<DictDetail>>)
    ensures dicts == [] ==> r == map[]
    ensures forall c :: c in r ==> exists d :: d in dicts && Contributes(d) && d.value.code == c
  {
    if dicts == [] then map[]
    else
      var prefix := dicts[..|dicts| - 1];
      assert forall d :: d in prefix ==> d in dicts;
      Insert(Snapshot(prefix), dicts[|dicts| - 1])
  }

  /** The list `data?.forEach` visits: nothing when the response has no data. */
  function Fetched(data: Option<seq<Option<Dictionary>>>): seq<Option<Dictionary>>
  {
    if data.Some? then data.value else []
  }

  /** Lines 19-24: build the local mapping with one insertion per contributing dictionary. */
  method CollectMapping(dicts: seq<Option<Dictionary>>) returns (mapping: map<string, seq<DictDetail>>)
    ensures mapping == Snapshot(dicts)
  {
    mapping := map[];
    var i := 0;
    while i < |dicts|
      invariant 0 <= i <= |dicts|
      invariant mapping == Snapshot(dicts[..i])
    {
      var dict := dicts[i];
      if dict.Some? && dict.value.details.Some? {
        mapping := mapping[dict.value.code := dict.value.details.value];
      }
      assert dicts[..i + 1][..i] == dicts[..i];
      i := i + 1;
    }
    assert dicts[..i] == dicts;
  }

  class DictStore {
    var dictMapping: map<string, seq<DictDetail>>

    constructor ()
      ensures dictMapping == map[]
    {
      dictMapping := map[];
    }

    /** initDictMapping, given what the bulk request resolved to: the new mapping replaces the old one outright. */
    method InitDictMapping(data: Option<seq<Option<Dictionary>>>)
      modifies this
      ensures dictMapping == Snapshot(Fetched(data))
      ensures data.None? ==> dictMapping == map[]
    {
      var mapping := CollectMapping(Fetched(data));
      dictMapping := mapping;
    }
  }

  /** A code is a key of the snapshot iff some fetched dictionary with that code has details. */
  lemma {:induction false} SnapshotKeys(dicts: seq<Option<Dictionary>>, c: string)
    ensures c in Snapshot(dicts) <==> exists i :: 0 <= i < |dicts| && Contributes(dicts[i]) && dicts[i].value.code == c
  {
    if dicts != [] {
      var n := |dicts| - 1;
      var prefix := dicts[..n];
      SnapshotKeys(prefix, c);
      if c in Snapshot(prefix) {
        var i :| 0 <= i < |prefix| && Contributes(prefix[i]) && prefix[i].value.code == c;
        assert dicts[i] == prefix[i];
      }
      if exists i :: 0 <= i < |dicts| && Contributes(dicts[i]) && dicts[i].value.code == c {
        var i :| 0 <= i < |dicts| && Contributes(dicts[i]) && dicts[i].value.code == c;
        if i < n {
          assert prefix[i] == dicts[i];
        }
      }
    }
  }

  /** When several dictionaries share a code, the last one with details supplies the value. */
  lemma {:induction false} SnapshotLastWins(dicts: seq<Option<Dictionary>>, i: nat)
    requires i < |dicts| && Contributes(dicts[i])
    requires forall j :: i < j < |dicts| && Contributes(dicts[j]) ==> dicts[j].value.code != dicts[i].value.code
    ensures dicts[i].value.code in Snapshot(dicts)
    ensures Snapshot(dicts)[dicts[i].value.code] == dicts[i].value.details.value
  {
    var n := |dicts| - 1;
    var prefix := dicts[..n];
    assert Snapshot(dicts) == Insert(Snapshot(prefix), dicts[n]);
    if i < n {
      assert prefix[i] == dicts[i];
      SnapshotLastWins(prefix, i);
    }
  }

  /** A dictionary without details adds nothing. */
  lemma NoDetailsNoEffect(dicts: seq<Option<Dictionary>>, d: Option<Dictionary>)
    requires !Contributes(d)
    ensures Snapshot(dicts + [d]) == Snapshot(dicts)
  {
    assert (dicts + [d])[..|dicts|] == dicts;
  }

  /** A code that no fetched dictionary contributes is absent, whatever the earlier mapping held. */
  lemma UnfetchedCodeAbsent(dicts: seq<Option<Dictionary>>, c: string)
    requires forall i :: 0 <= i < |dicts| && Contributes(dicts[i]) ==> dicts[i].value.code != c
    ensures c !in Snapshot(dicts)
  {
    SnapshotKeys(dicts, c);
  }
}
