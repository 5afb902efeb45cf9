/** The hazard store: the shared list of hazard reports and the currently
    selected hazard, and how fetching, adding and voting change them once the
    remote call has settled. */
module Hazards {
  import opened Remote

  /** One row of the `hazards` table. `severityRating` is carried through
      untouched, so a mathematical integer stands in for the number. */
  datatype Hazard = Hazard(
    id: Option<string>,
    hazardType: string,
    severityRating: int,
    location: string,
    createdAt: Option<string>,
    createdBy: Option<string>,
    isActive: Option<bool>)

  /** An element of the hazards list: a row, or `undefined`, which is what
      reading `data[0]` of an empty array yields and what addHazard then
      appends. */
  datatype Entry = Undefined | Row(hazard: Hazard)

  /** The rows of a response as list elements, in the order received. */
  function Rows(data: seq<Hazard>): (r: seq<Entry>)
    ensures |r| == |data|
    ensures forall i :: 0 <= i < |data| ==> r[i] == Row(data[i])
  {
    seq(|data|, i requires 0 <= i < |data| => Row(data[i]))
  }

  /** `data[0]`: the first row, or `undefined` when the array is empty. */
  function First(data: seq<Hazard>): (e: Entry)
    ensures e.Undefined? <==> data == []
    ensures e.Row? ==> e.hazard == data[0]
  {
    if data == [] then Undefined else Row(data[0])
  }

  /** The list after fetchHazards settles with `resp`: an error is only
      logged, data replaces the list wholesale, and a response with neither
      leaves it alone. */
  function AfterFetch(hazards: seq<Entry>, resp: Response<seq<Hazard>>): (r: seq<Entry>)
    ensures resp.error.Some? ==> r == hazards
    ensures resp.error.None? && resp.data.None? ==> r == hazards
    ensures resp.error.None? && resp.data.Some? ==>
      |r| == |resp.data.value| &&
      forall i :: 0 <= i < |r| ==> r[i] == Row(resp.data.value[i])
  {
    if resp.error.Some? then hazards
    else if resp.data.Some? then Rows(resp.data.value)
    else hazards
  }

  /** The new list and the value addHazard resolves to (`None` is `null`). */
  datatype AddOutcome = AddOutcome(hazards: seq<Entry>, returned: Option<Entry>)

  /** The outcome of addHazard once the insert settles with `resp`. Nothing is
      inserted before the server answers; on success the first returned
      element is appended and handed back, even when it is `undefined`. */
  function AfterAdd(hazards: seq<Entry>, resp: Response<seq<Hazard>>): (o: AddOutcome)
    ensures resp.error.Some? || resp.data.None? ==>
      o.hazards == hazards && o.returned == None
    ensures resp.error.None? && resp.data.Some? ==>
      && o.returned == Some(First(resp.data.value))
      && |o.hazards| == |hazards| + 1
      && o.hazards[..|hazards|] == hazards
      && o.hazards[|hazards|] == o.returned.value
  {
    if resp.error.Some? then AddOutcome(hazards, None)
    else if resp.data.Some? then
      var first := First(resp.data.value);
      AddOutcome(hazards + [first], Some(first))
    else AddOutcome(hazards, None)
  }

  /** Both stores of the module together. */
  datatype State = State(hazards: seq<Entry>, selectedHazard: Option<Hazard>)

  /** The stores as the module creates them. */
  const Initial: State := State([], None)

  /** One exported operation together with the outcome of its remote call. */
  datatype Call =
    | Fetch(fetched: Response<seq<Hazard>>)
    | Add(hazard: Hazard, inserted: Response<seq<Hazard>>)
    | Vote(hazardId: string, userId: string, voteType: string, voteError: Option<DbError>)

  /** The state after one operation settles. */
  function Step(s: State, c: Call): State
  {
    match c
    case Fetch(resp) => s.(hazards := AfterFetch(s.hazards, resp))
    case Add(_, resp) => s.(hazards := AfterAdd(s.hazards, resp).hazards)
    case Vote(_, _, _, _) => s
  }

  /** The state after a sequence of operations, each settling before the next. */
  function Run(s: State, calls: seq<Call>): State
    decreases |calls|
  {
    if calls == [] then s else Step(Run(s, calls[..|calls| - 1]), calls[|calls| - 1])
  }

  /** A fetch that settles with data and no error: it replaces the list. */
  predicate Replaces(c: Call)
  {
    c.Fetch? && c.fetched.error.None? && c.fetched.data.Some?
  }

  /** An insert that settles with data and no error: it appends to the list. */
  predicate Appends(c: Call)
  {
    c.Add? && c.inserted.error.None? && c.inserted.data.Some?
  }

  /** The elements the successful inserts among `calls` append, in call order. */
  function Appended(calls: seq<Call>): seq<Entry>
    decreases |calls|
  {
    if calls == [] then []
    else
      var c := calls[|calls| - 1];
      Appended(calls[..|calls| - 1]) + (if Appends(c) then [First(c.inserted.data.value)] else [])
  }

  lemma {:induction false} RunConcat(s: State, xs: seq<Call>, ys: seq<Call>)
    ensures Run(s, xs + ys) == Run(Run(s, xs), ys)
    decreases |ys|
  {
    if ys == [] {
      assert xs + ys == xs;
    } else {
      var zs := xs + ys;
      assert zs[..|zs| - 1] == xs + ys[..|ys| - 1];
      RunConcat(s, xs, ys[..|ys| - 1]);
    }
  }

  /** No operation of the module ever writes `selectedHazard`. */
  lemma {:induction false} SelectedHazardNeverWritten(s: State, calls: seq<Call>)
    ensures Run(s, calls).selectedHazard == s.selectedHazard
    decreases |calls|
  {
    if calls != [] {
      SelectedHazardNeverWritten(s, calls[..|calls| - 1]);
    }
  }

  /** Votes, whatever their outcome, leave both stores exactly as they were. */
  lemma {:induction false} VotesChangeNothing(s: State, calls: seq<Call>)
    requires forall i :: 0 <= i < |calls| ==> calls[i].Vote?
    ensures Run(s, calls) == s
    decreases |calls|
  {
    if calls != [] {
      VotesChangeNothing(s, calls[..|calls| - 1]);
    }
  }

  /** Until a fetch replaces it, the list only grows at its end: it is the
      starting list followed by what every successful insert returned, in
      order, so every earlier element keeps its position. */
  lemma {:induction false} AppendOnlyUntilReplaced(s: State, calls: seq<Call>)
    requires forall i :: 0 <= i < |calls| ==> !Replaces(calls[i])
    ensures Run(s, calls).hazards == s.hazards + Appended(calls)
    decreases |calls|
  {
    if calls != [] {
      var init := calls[..|calls| - 1];
      AppendOnlyUntilReplaced(s, init);
      assert Run(s, init).hazards == s.hazards + Appended(init);
    }
  }

  /** After the last fetch that returned data, the list is exactly those rows
      followed by what the later successful inserts returned: everything the
      list held before that fetch is gone. */
  lemma {:induction false} LastReplaceDecides(s: State, calls: seq<Call>, k: nat)
    requires k < |calls| && Replaces(calls[k])
    requires forall i :: k < i < |calls| ==> !Replaces(calls[i])
    ensures Run(s, calls).hazards == Rows(calls[k].fetched.data.value) + Appended(calls[k + 1..])
  {
    var head, tail := calls[..k + 1], calls[k + 1..];
    assert calls == head + tail;
    RunConcat(s, head, tail);
    assert head[..|head| - 1] == calls[..k];
    var mid := Run(s, head);
    assert mid.hazards == Rows(calls[k].fetched.data.value);
    AppendOnlyUntilReplaced(mid, tail);
  }

  /** Two stores that see the same operations from a replacing fetch on hold
      the same list afterwards, whatever they held before. */
  lemma HistoryForgottenAfterReplace(s1: State, s2: State, calls: seq<Call>, k: nat)
    requires k < |calls| && Replaces(calls[k])
    requires forall i :: k < i < |calls| ==> !Replaces(calls[i])
    ensures Run(s1, calls).hazards == Run(s2, calls).hazards
  {
    LastReplaceDecides(s1, calls, k);
    LastReplaceDecides(s2, calls, k);
  }

  /** The two stores, `hazards` and `selectedHazard`, as one object. */
  class HazardStore {
    var hazards: seq<Entry>
    var selectedHazard: Option<Hazard>

    function Current(): State
      reads this
    {
      State(hazards, selectedHazard)
    }

    /** Both stores start empty: no hazards and no selection. */
    constructor ()
      ensures hazards == [] && selectedHazard == None
      ensures Current() == Initial
    {
      hazards := [];
      selectedHazard := None;
    }

    /** fetchHazards, once the select of active rows settles with `resp`. */
    method FetchHazards(resp: Response<seq<Hazard>>)
      modifies this
      ensures resp.error.Some? || resp.data.None? ==> hazards == old(hazards)
      ensures resp.error.None? && resp.data.Some? ==> hazards == Rows(resp.data.value)
      ensures selectedHazard == old(selectedHazard)
      ensures Current() == Step(old(Current()), Fetch(resp))
    {
      if resp.error.Some? {
        // the error is only logged
      } else if resp.data.Some? {
        hazards := Rows(resp.data.value);
      }
    }

    /** addHazard, once the insert of `hazard` settles with `resp`. The value
        sent plays no part locally: only what the server returns is stored. */
    method AddHazard(hazard: Hazard, resp: Response<seq<Hazard>>) returns (r: Option<Entry>)
      modifies this
      ensures resp.error.Some? || resp.data.None? ==> r == None && hazards == old(hazards)
      ensures resp.error.None? && resp.data.Some? ==>
        r == Some(First(resp.data.value)) && hazards == old(hazards) + [r.value]
      ensures selectedHazard == old(selectedHazard)
      ensures r == AfterAdd(old(hazards), resp).returned
      ensures Current() == Step(old(Current()), Add(hazard, resp))
    {
      if resp.error.Some? {
        return None;
      } else if resp.data.Some? {
        var first := First(resp.data.value);
        hazards := hazards + [first];
        return Some(first);
      }
      return None;
    }

    /** voteHazard: the vote goes to the server and nothing local changes,
        whether or not the insert fails. */
    method VoteHazard(hazardId: string, userId: string, voteType: string, voteError: Option<DbError>)
      ensures unchanged(this)
      ensures Current() == Step(old(Current()), Vote(hazardId, userId, voteType, voteError))
    {
      if voteError.Some? {
        // the error is only logged
      }
    }
  }
}
