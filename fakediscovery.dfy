/** The in-memory VTGate discovery fake of vtadmin: gates indexed by tag and
    by hostname, and the tag query that intersects the per-tag lists. */
module FakeDiscovery {
  import opened Wrappers

  /** A VTGate record. Only the hostname is ever inspected; every other
      protobuf field is folded into an opaque payload. */
  datatype Gate = Gate(hostname: string, payload: nat)

  /** The single generic error the fake returns. */
  datatype Error = AnError

  // ---------------------------------------------------------------------
  // Vocabulary

  function Hostnames(gates: seq<Gate>): set<string>
  {
    set g | g in gates :: g.hostname
  }

  ghost predicate NoDupHostnames(gates: seq<Gate>)
  {
    forall i, j :: 0 <= i < j < |gates| ==> gates[i].hostname != gates[j].hostname
  }

  /** Every entry of `m` is stored under its own hostname. */
  ghost predicate Keyed(m: map<string, Gate>)
  {
    forall h :: h in m ==> m[h].hostname == h
  }

  /** `j` is the last position of `gates` whose hostname is `h`. */
  ghost predicate LastOf(gates: seq<Gate>, j: int, h: string)
  {
    && 0 <= j < |gates|
    && gates[j].hostname == h
    && forall k :: j < k < |gates| ==> gates[k].hostname != h
  }

  /** `results` lists the entries of `m` once each, in some order. */
  ghost predicate Enumerates(results: seq<Gate>, m: map<string, Gate>)
  {
    && |results| == |m|
    && NoDupHostnames(results)
    && Hostnames(results) == m.Keys
    && forall i :: 0 <= i < |results| ==> results[i].hostname in m && m[results[i].hostname] == results[i]
  }

  /** The state invariant of the fake: `byName` is keyed by hostname, and every
      gate in a tag list has been registered by hostname. */
  ghost predicate IndexInvariant(byTag: map<string, seq<Gate>>, byName: map<string, Gate>)
  {
    && Keyed(byName)
    && forall t, g :: t in byTag && g in byTag[t] ==> g.hostname in byName
  }

  /** Reading a missing key of a Go map of slices yields the nil slice. */
  function Lookup(byTag: map<string, seq<Gate>>, t: string): seq<Gate>
  {
    if t in byTag then byTag[t] else []
  }

  function Repeat(gates: seq<Gate>, k: nat): seq<Gate>
  {
    if k == 0 then [] else Repeat(gates, k - 1) + gates
  }

  // ---------------------------------------------------------------------
  // Specification functions (each folds its sequence from the end, so that
  // a loop over a prefix is described by the function on that prefix)

  /** `byTag` after appending `gates` to the list of each tag in `tags`, in turn. */
  function AppendToTags(byTag: map<string, seq<Gate>>, tags: seq<string>, gates: seq<Gate>): map<string, seq<Gate>>
    decreases |tags|
  {
    if tags == [] then byTag
    else
      var before := AppendToTags(byTag, tags[..|tags| - 1], gates);
      var t := tags[|tags| - 1];
      before[t := Lookup(before, t) + gates]
  }

  /** `byName` after storing each of `gates` under its hostname, in turn. */
  function IndexByName(byName: map<string, Gate>, gates: seq<Gate>): map<string, Gate>
    decreases |gates|
  {
    if gates == [] then byName
    else
      var g := gates[|gates| - 1];
      IndexByName(byName, gates[..|gates| - 1])[g.hostname := g]
  }

  /** One round of the tag query: the gates of a tag's list whose hostname
      survives in `candidates`, keyed by hostname (a later gate overwrites). */
  function Narrow(candidates: map<string, Gate>, list: seq<Gate>): map<string, Gate>
    decreases |list|
  {
    if list == [] then map[]
    else
      var before := Narrow(candidates, list[..|list| - 1]);
      var g := list[|list| - 1];
      if g.hostname in candidates then before[g.hostname := g] else before
  }

  /** The candidate map after all rounds, or None once a tag is unknown. */
  function Candidates(byName: map<string, Gate>, byTag: map<string, seq<Gate>>, tags: seq<string>): Option<map<string, Gate>>
    decreases |tags|
  {
    if tags == [] then Some(byName)
    else
      match Candidates(byName, byTag, tags[..|tags| - 1])
      case None => None
      case Some(c) =>
        var t := tags[|tags| - 1];
        if t in byTag then Some(Narrow(c, byTag[t])) else None
  }

  /** The gates a tag query answers with, keyed by hostname. */
  function Selected(byName: map<string, Gate>, byTag: map<string, seq<Gate>>, tags: seq<string>): map<string, Gate>
  {
    match Candidates(byName, byTag, tags)
    case None => map[]
    case Some(c) => c
  }

  // ---------------------------------------------------------------------
  // Lemmas about the specification functions

  lemma HostnamesSnoc(gates: seq<Gate>, g: Gate)
    ensures Hostnames(gates + [g]) == Hostnames(gates) + {g.hostname}
  {
    assert forall x :: x in gates + [g] <==> x in gates || x == g;
  }

  lemma {:induction false} RepeatMembers(gates: seq<Gate>, k: nat, g: Gate)
    ensures g in Repeat(gates, k) ==> g in gates
  {
    if k > 0 {
      RepeatMembers(gates, k - 1, g);
    }
  }

  /** AddTaggedGates on `byTag`: each listed tag gains `gates`, in order, once
      per time it is listed; a tag not listed keeps its list (or its absence). */
  lemma {:induction false} AppendToTagsAt(byTag: map<string, seq<Gate>>, tags: seq<string>, gates: seq<Gate>, t: string)
    ensures t in AppendToTags(byTag, tags, gates) <==> t in byTag || t in tags
    ensures Lookup(AppendToTags(byTag, tags, gates), t) == Lookup(byTag, t) + Repeat(gates, multiset(tags)[t])
    decreases |tags|
  {
    if tags != [] {
      var prefix, last := tags[..|tags| - 1], tags[|tags| - 1];
      var before := AppendToTags(byTag, prefix, gates);
      assert AppendToTags(byTag, tags, gates) == before[last := Lookup(before, last) + gates];
      CountSnoc(tags, t);
      AppendToTagsAt(byTag, prefix, gates, t);
      AppendOneTag(before, last, gates, t);
      if t == last {
        RepeatSnoc(Lookup(byTag, t), gates, multiset(prefix)[t]);
      }
    }
  }

  /** One iteration of the tag loop of AddTaggedGates. */
  lemma AppendOneTag(byTag: map<string, seq<Gate>>, tag: string, gates: seq<Gate>, t: string)
    ensures t in byTag[tag := Lookup(byTag, tag) + gates] <==> t in byTag || t == tag
    ensures Lookup(byTag[tag := Lookup(byTag, tag) + gates], t) ==
      if t == tag then Lookup(byTag, t) + gates else Lookup(byTag, t)
  {
  }

  lemma RepeatSnoc(prefix: seq<Gate>, gates: seq<Gate>, c: nat)
    ensures (prefix + Repeat(gates, c)) + gates == prefix + Repeat(gates, c + 1)
  {
    assert Repeat(gates, c + 1) == Repeat(gates, c) + gates;
  }

  lemma CountSnoc(tags: seq<string>, t: string)
    requires tags != []
    ensures multiset(tags)[t] == multiset(tags[..|tags| - 1])[t] + (if t == tags[|tags| - 1] then 1 else 0)
    ensures t in tags <==> t in tags[..|tags| - 1] || t == tags[|tags| - 1]
  {
    var prefix, last := tags[..|tags| - 1], tags[|tags| - 1];
    assert tags == prefix + [last];
    assert multiset(tags) == multiset(prefix) + multiset{last};
  }

  /** A tag listed exactly once gains exactly `gates` at the end of its list;
      a tag not listed is unchanged. */
  lemma AppendToTagsOnce(byTag: map<string, seq<Gate>>, tags: seq<string>, gates: seq<Gate>, t: string)
    ensures multiset(tags)[t] == 1 ==>
      t in AppendToTags(byTag, tags, gates) && AppendToTags(byTag, tags, gates)[t] == Lookup(byTag, t) + gates
    ensures t !in tags ==> (t in AppendToTags(byTag, tags, gates) <==> t in byTag)
    ensures t !in tags && t in byTag ==> AppendToTags(byTag, tags, gates)[t] == byTag[t]
  {
    AppendToTagsAt(byTag, tags, gates, t);
    assert multiset(tags)[t] > 0 ==> t in tags;
    assert Repeat(gates, 1) == [] + gates == gates;
  }

  /** AddTaggedGates on `byName`: a hostname among `gates` now maps to the last
      gate with that hostname; every other hostname is unchanged. */
  lemma {:induction false} IndexByNameAt(byName: map<string, Gate>, gates: seq<Gate>, h: string)
    ensures h in IndexByName(byName, gates) <==> h in byName || h in Hostnames(gates)
    ensures h !in Hostnames(gates) && h in byName ==> IndexByName(byName, gates)[h] == byName[h]
    ensures forall j :: LastOf(gates, j, h) ==> IndexByName(byName, gates)[h] == gates[j]
    decreases |gates|
  {
    if gates != [] {
      var prefix, g := gates[..|gates| - 1], gates[|gates| - 1];
      assert gates == prefix + [g];
      HostnamesSnoc(prefix, g);
      IndexByNameAt(byName, prefix, h);
      forall j | LastOf(gates, j, h)
        ensures IndexByName(byName, gates)[h] == gates[j]
      {
        if j < |gates| - 1 {
          assert LastOf(prefix, j, h);
        }
      }
    }
  }

  lemma IndexByNameKeyed(byName: map<string, Gate>, gates: seq<Gate>)
    requires Keyed(byName)
    ensures Keyed(IndexByName(byName, gates))
    ensures IndexByName(byName, gates).Keys == byName.Keys + Hostnames(gates)
  {
    var r := IndexByName(byName, gates);
    forall h | h in r
      ensures r[h].hostname == h
    {
      IndexByNameAt(byName, gates, h);
      if h in Hostnames(gates) {
        var k :| 0 <= k < |gates| && gates[k].hostname == h;
        var j := LastIndex(gates, h, k);
        assert r[h] == gates[j];
      }
    }
    forall h ensures h in r <==> h in byName || h in Hostnames(gates) {
      IndexByNameAt(byName, gates, h);
    }
  }

  /** Some position holds the last occurrence of a hostname that occurs at `k`. */
  lemma {:induction false} LastIndex(gates: seq<Gate>, h: string, k: int) returns (j: int)
    requires 0 <= k < |gates| && gates[k].hostname == h
    ensures k <= j && LastOf(gates, j, h)
    decreases |gates| - k
  {
    if exists k' :: k < k' < |gates| && gates[k'].hostname == h {
      var k' :| k < k' < |gates| && gates[k'].hostname == h;
      j := LastIndex(gates, h, k');
    } else {
      j := k;
    }
  }

  /** AddTaggedGates keeps the state invariant. */
  lemma AddPreservesInvariant(byTag: map<string, seq<Gate>>, byName: map<string, Gate>, tags: seq<string>, gates: seq<Gate>)
    requires IndexInvariant(byTag, byName)
    ensures IndexInvariant(AppendToTags(byTag, tags, gates), IndexByName(byName, gates))
  {
    var byTag', byName' := AppendToTags(byTag, tags, gates), IndexByName(byName, gates);
    IndexByNameKeyed(byName, gates);
    forall t: string, g: Gate | t in byTag' && g in byTag'[t]
      ensures g.hostname in byName'
    {
      AppendToTagsAt(byTag, tags, gates, t);
      var c := multiset(tags)[t];
      assert byTag'[t] == Lookup(byTag, t) + Repeat(gates, c);
      if g in Lookup(byTag, t) {
        assert t in byTag && g in byTag[t];
      } else {
        RepeatMembers(gates, c, g);
      }
    }
  }

  /** One round keeps exactly the candidates that occur in the tag's list, each
      mapped to the last such gate of the list. */
  lemma {:induction false} NarrowAt(candidates: map<string, Gate>, list: seq<Gate>, h: string)
    ensures h in Narrow(candidates, list) <==> h in candidates && h in Hostnames(list)
    ensures h in Narrow(candidates, list) ==> Narrow(candidates, list)[h].hostname == h
    ensures forall j :: LastOf(list, j, h) && h in candidates ==> Narrow(candidates, list)[h] == list[j]
    decreases |list|
  {
    if list != [] {
      var prefix, g := list[..|list| - 1], list[|list| - 1];
      assert list == prefix + [g];
      HostnamesSnoc(prefix, g);
      NarrowAt(candidates, prefix, h);
      forall j | LastOf(list, j, h) && h in candidates
        ensures Narrow(candidates, list)[h] == list[j]
      {
        if j < |list| - 1 {
          assert LastOf(prefix, j, h);
        }
      }
    }
  }

  lemma NarrowKeyed(candidates: map<string, Gate>, list: seq<Gate>)
    ensures Keyed(Narrow(candidates, list))
    ensures Narrow(candidates, list).Keys <= candidates.Keys
  {
    forall h | h in Narrow(candidates, list)
      ensures Narrow(candidates, list)[h].hostname == h && h in candidates
    {
      NarrowAt(candidates, list, h);
    }
  }

  /** The tag query, declaratively: it fails exactly when some requested tag is
      unknown, and otherwise keeps a hostname exactly when it is registered by
      name and occurs in the list of every requested tag. */
  lemma {:induction false} CandidatesAt(byName: map<string, Gate>, byTag: map<string, seq<Gate>>, tags: seq<string>, h: string)
    ensures Candidates(byName, byTag, tags).Some? <==> forall t :: t in tags ==> t in byTag
    ensures Candidates(byName, byTag, tags).Some? ==>
      (h in Candidates(byName, byTag, tags).value <==>
        h in byName && forall t :: t in tags ==> t in byTag && h in Hostnames(byTag[t]))
    decreases |tags|
  {
    if tags != [] {
      var prefix, last := tags[..|tags| - 1], tags[|tags| - 1];
      assert tags == prefix + [last];
      assert forall t :: t in tags <==> t in prefix || t == last;
      CandidatesAt(byName, byTag, prefix, h);
      if Candidates(byName, byTag, prefix).Some? && last in byTag {
        NarrowAt(Candidates(byName, byTag, prefix).value, byTag[last], h);
      }
    }
  }

  lemma {:induction false} CandidatesKeyed(byName: map<string, Gate>, byTag: map<string, seq<Gate>>, tags: seq<string>)
    requires Keyed(byName)
    ensures Candidates(byName, byTag, tags).Some? ==> Keyed(Candidates(byName, byTag, tags).value)
    decreases |tags|
  {
    if tags != [] {
      var prefix := tags[..|tags| - 1];
      CandidatesKeyed(byName, byTag, prefix);
      if Candidates(byName, byTag, prefix).Some? && tags[|tags| - 1] in byTag {
        NarrowKeyed(Candidates(byName, byTag, prefix).value, byTag[tags[|tags| - 1]]);
      }
    }
  }

  /** With at least one tag, the gate kept for a hostname is the last gate with
      that hostname in the LAST tag's list, not necessarily the one in `byName`. */
  lemma CandidateFromLastTag(byName: map<string, Gate>, byTag: map<string, seq<Gate>>, tags: seq<string>, h: string, j: int)
    requires tags != [] && Candidates(byName, byTag, tags).Some?
    requires h in Candidates(byName, byTag, tags).value
    requires tags[|tags| - 1] in byTag && LastOf(byTag[tags[|tags| - 1]], j, h)
    ensures Candidates(byName, byTag, tags).value[h] == byTag[tags[|tags| - 1]][j]
  {
    var prefix := tags[..|tags| - 1];
    var c := Candidates(byName, byTag, prefix).value;
    NarrowAt(c, byTag[tags[|tags| - 1]], h);
  }

  /** Under the state invariant, the `byName` condition is implied by the tag
      lists for a non-empty query. */
  lemma SelectedByTagsAlone(byName: map<string, Gate>, byTag: map<string, seq<Gate>>, tags: seq<string>, h: string)
    requires IndexInvariant(byTag, byName) && tags != []
    ensures h in Selected(byName, byTag, tags) <==>
      forall t :: t in tags ==> t in byTag && h in Hostnames(byTag[t])
  {
    CandidatesAt(byName, byTag, tags, h);
    if forall t :: t in tags ==> t in byTag && h in Hostnames(byTag[t]) {
      var g :| g in byTag[tags[0]] && g.hostname == h;
      assert h in byName;
    }
  }

  /** Rounds only remove candidates: the answer for `tags` is included in the
      answer for any prefix of `tags`. */
  lemma CandidatesShrink(byName: map<string, Gate>, byTag: map<string, seq<Gate>>, tags: seq<string>, k: nat)
    requires k <= |tags|
    ensures Candidates(byName, byTag, tags).Some? ==> Candidates(byName, byTag, tags[..k]).Some?
    ensures Selected(byName, byTag, tags).Keys <= Selected(byName, byTag, tags[..k]).Keys
  {
    CandidatesAt(byName, byTag, tags, "");
    CandidatesAt(byName, byTag, tags[..k], "");
    assert forall t :: t in tags[..k] ==> t in tags;
    forall h | h in Selected(byName, byTag, tags)
      ensures h in Selected(byName, byTag, tags[..k])
    {
      CandidatesAt(byName, byTag, tags, h);
      CandidatesAt(byName, byTag, tags[..k], h);
    }
  }

  /** The answer depends only on which tags are requested, not on their order
      or repetition. */
  lemma SelectedOrderIndependent(byName: map<string, Gate>, byTag: map<string, seq<Gate>>, tags1: seq<string>, tags2: seq<string>)
    requires forall t :: t in tags1 <==> t in tags2
    ensures Candidates(byName, byTag, tags1).Some? <==> Candidates(byName, byTag, tags2).Some?
    ensures Selected(byName, byTag, tags1).Keys == Selected(byName, byTag, tags2).Keys
  {
    CandidatesAt(byName, byTag, tags1, "");
    CandidatesAt(byName, byTag, tags2, "");
    forall h ensures h in Selected(byName, byTag, tags1) <==> h in Selected(byName, byTag, tags2) {
      CandidatesAt(byName, byTag, tags1, h);
      CandidatesAt(byName, byTag, tags2, h);
    }
  }

  /** An empty index answers every query with nothing. */
  lemma EmptyIndexSelectsNothing(tags: seq<string>)
    ensures Selected(map[], map[], tags) == map[]
  {
  }

  lemma NoDupSnoc(gates: seq<Gate>, g: Gate)
    requires NoDupHostnames(gates) && g.hostname !in Hostnames(gates)
    ensures NoDupHostnames(gates + [g])
  {
    forall i | 0 <= i < |gates|
      ensures gates[i].hostname != g.hostname
    {
      assert gates[i] in gates;
    }
  }

  // ---------------------------------------------------------------------
  // Ranging over a Go map: the order is unspecified, so it is a free choice.

  /** The invariant of ranging over `m`: `results` holds the entries of the
      keys already visited, those not in `rest`, once each. */
  ghost predicate CollectedExcept(results: seq<Gate>, rest: set<string>, m: map<string, Gate>)
  {
    && rest <= m.Keys
    && Hostnames(results) == m.Keys - rest
    && |results| + |rest| == |m.Keys|
    && NoDupHostnames(results)
    && forall i :: 0 <= i < |results| ==> results[i].hostname in m && m[results[i].hostname] == results[i]
  }

  lemma CollectStep(results: seq<Gate>, rest: set<string>, m: map<string, Gate>, h: string)
    requires Keyed(m) && CollectedExcept(results, rest, m) && h in rest
    ensures CollectedExcept(results + [m[h]], rest - {h}, m)
  {
    var g := m[h];
    HostnamesSnoc(results, g);
    NoDupSnoc(results, g);
    assert |rest - {h}| == |rest| - 1;
    assert (m.Keys - rest) + {h} == m.Keys - (rest - {h});
  }

  method Collect(m: map<string, Gate>) returns (results: seq<Gate>)
    requires Keyed(m)
    ensures Enumerates(results, m)
  {
    var rest := m.Keys;
    results := [];
    while rest != {}
      invariant CollectedExcept(results, rest, m)
      decreases rest
    {
      var h :| h in rest;
      CollectStep(results, rest, m, h);
      results := results + [m[h]];
      rest := rest - {h};
    }
    assert |m| == |m.Keys|;
  }

  // ---------------------------------------------------------------------
  // The fake

  class Fake {
    var byTag: map<string, seq<Gate>>
    var byName: map<string, Gate>
    var shouldErr: bool

    ghost predicate Valid()
      reads this
    {
      IndexInvariant(byTag, byName)
    }

    /** The gates a query for `tags` names, keyed by hostname. */
    ghost function Answer(tags: seq<string>): map<string, Gate>
      reads this
    {
      Selected(byName, byTag, tags)
    }

    constructor ()
      ensures Valid()
      ensures byTag == map[] && byName == map[] && !shouldErr
    {
      byTag := map[];
      byName := map[];
      shouldErr := false;
    }

    method AddTaggedGates(tags: seq<string>, gates: seq<Gate>)
      requires Valid()
      modifies this
      ensures Valid()
      ensures byTag == AppendToTags(old(byTag), tags, gates)
      ensures byName == IndexByName(old(byName), gates)
      ensures shouldErr == old(shouldErr)
    {
      ghost var byTag0, byName0 := byTag, byName;
      var i := 0;
      while i < |tags|
        invariant 0 <= i <= |tags|
        invariant byTag == AppendToTags(byTag0, tags[..i], gates)
        invariant byName == byName0 && shouldErr == old(shouldErr)
      {
        var tag := tags[i];
        var existing := if tag in byTag then byTag[tag] else [];
        byTag := byTag[tag := existing + gates];
        assert tags[..i + 1][..i] == tags[..i];
        i := i + 1;
      }
      assert tags[..|tags|] == tags;
      var j := 0;
      while j < |gates|
        invariant 0 <= j <= |gates|
        invariant byName == IndexByName(byName0, gates[..j])
        invariant byTag == AppendToTags(byTag0, tags, gates) && shouldErr == old(shouldErr)
      {
        var g := gates[j];
        byName := byName[g.hostname := g];
        assert gates[..j + 1][..j] == gates[..j];
        j := j + 1;
      }
      assert gates[..|gates|] == gates;
      AddPreservesInvariant(byTag0, byName0, tags, gates);
    }

    method SetGatesError(shouldErr: bool)
      modifies this
      ensures this.shouldErr == shouldErr
      ensures byTag == old(byTag) && byName == old(byName)
    {
      this.shouldErr := shouldErr;
    }

    /** All gates carrying every tag in `tags` (no tags: all gates), each
        hostname once, in no particular order. */
    method DiscoverVTGates(tags: seq<string>) returns (r: Result<seq<Gate>, Error>)
      requires Valid()
      ensures shouldErr ==> r == Err(AnError)
      ensures !shouldErr ==> r.Ok? && Enumerates(r.value, Answer(tags))
      ensures !shouldErr && (exists t :: t in tags && t !in byTag) ==> r == Ok([])
    {
      if shouldErr {
        return Err(AnError);
      }
      if |tags| == 0 {
        var results := Collect(byName);
        return Ok(results);
      }
      CandidatesAt(byName, byTag, tags, "");
      var candidates := byName;
      var i := 0;
      while i < |tags|
        invariant 0 <= i <= |tags|
        invariant Candidates(byName, byTag, tags[..i]) == Some(candidates)
      {
        var tag := tags[i];
        if tag !in byTag {
          return Ok([]);
        }
        var gates := byTag[tag];
        var intermediate := map[];
        var j := 0;
        while j < |gates|
          invariant 0 <= j <= |gates|
          invariant intermediate == Narrow(candidates, gates[..j])
        {
          var g := gates[j];
          if g.hostname in candidates {
            intermediate := intermediate[g.hostname := g];
          }
          assert gates[..j + 1][..j] == gates[..j];
          j := j + 1;
        }
        assert gates[..|gates|] == gates;
        assert tags[..i + 1][..i] == tags[..i];
        candidates := intermediate;
        i := i + 1;
      }
      assert tags[..|tags|] == tags;
      CandidatesKeyed(byName, byTag, tags);
      var results := Collect(candidates);
      return Ok(results);
    }

    /** One gate carrying every tag in `tags`, chosen arbitrarily. */
    method DiscoverVTGate(tags: seq<string>) returns (r: Result<Gate, Error>)
      requires Valid()
      ensures shouldErr ==> r == Err(AnError)
      ensures r.Err? <==> shouldErr || Answer(tags) == map[]
      ensures r.Ok? ==> r.value.hostname in Answer(tags) && Answer(tags)[r.value.hostname] == r.value
    {
      var gates := DiscoverVTGates(tags);
      if gates.Err? {
        return Err(gates.error);
      }
      if |gates.value| == 0 {
        return Err(AnError);
      }
      var i :| 0 <= i < |gates.value|;
      return Ok(gates.value[i]);
    }

    /** The hostname of one gate carrying every tag in `tags`, or "" with an error. */
    method DiscoverVTGateAddr(tags: seq<string>) returns (addr: string, err: Option<Error>)
      requires Valid()
      ensures err.Some? <==> shouldErr || Answer(tags) == map[]
      ensures err.Some? ==> addr == ""
      ensures err.None? ==> addr in Answer(tags) && Answer(tags)[addr].hostname == addr
    {
      var gate := DiscoverVTGate(tags);
      if gate.Err? {
        return "", Some(gate.error);
      }
      return gate.value.hostname, None;
    }
  }

  /** A fresh fake answers every query with an empty list and no error. */
  method NewFakeAnswersEmpty(tags: seq<string>) returns (r: Result<seq<Gate>, Error>)
    ensures r == Ok([])
  {
    var fake := new Fake();
    EmptyIndexSelectsNothing(tags);
    r := fake.DiscoverVTGates(tags);
  }
}
