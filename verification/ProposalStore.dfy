/** The in-memory store of proposals and of their terminal decisions (core/pkg/approval/proposalstore.go). */
module ProposalStore {
  import opened Messages

  /** A decision kind is a string in the program; only two values are valid. */
  datatype Kind = Approved | Rejected | Unknown(text: string)

  datatype Proposal = Proposal(id: ProposalId, name: string, correlation: string, capabilities: seq<string>)

  datatype Marking = FirstTime | Replay | Conflict(prior: Kind) | MarkCancelled | MarkZeroId | MarkInvalidKind

  datatype Unmarking = Unmarked | UnmarkCancelled | UnmarkZeroId

  datatype Found = Found(proposal: Proposal) | NotFound(id: ProposalId) | LookupCancelled

  type Decisions = map<ProposalId, Kind>

  const NIL_ID: ProposalId := 0

  predicate ValidKind(kind: Kind) { kind == Approved || kind == Rejected }

  /** What MarkDecided answers, and the decisions it leaves. */
  function Mark(d: Decisions, cancelled: bool, id: ProposalId, kind: Kind): (r: (Marking, Decisions))
    ensures r.0 == FirstTime <==> !cancelled && id != NIL_ID && ValidKind(kind) && id !in d
    ensures r.1 == if r.0 == FirstTime then d[id := kind] else d
    ensures r.0 == Replay <==> !cancelled && id != NIL_ID && ValidKind(kind) && id in d && d[id] == kind
    ensures r.0.Conflict? <==> !cancelled && id != NIL_ID && ValidKind(kind) && id in d && d[id] != kind
    ensures r.0.Conflict? ==> r.0.prior == d[id]
  {
    if cancelled then (MarkCancelled, d)
    else if id == NIL_ID then (MarkZeroId, d)
    else if !ValidKind(kind) then (MarkInvalidKind, d)
    else if id in d then (if d[id] == kind then (Replay, d) else (Conflict(d[id]), d))
    else (FirstTime, d[id := kind])
  }

  /** What UnmarkDecided answers, and the decisions it leaves. */
  function Unmark(d: Decisions, cancelled: bool, id: ProposalId, kind: Kind): (Unmarking, Decisions) {
    if cancelled then (UnmarkCancelled, d)
    else if id == NIL_ID then (UnmarkZeroId, d)
    else if id in d && d[id] == kind then (Unmarked, d - {id})
    else (Unmarked, d)
  }

  /** A rollback right after a first claim restores the store; a stale rollback of the other kind changes nothing;
      no marking or unmarking touches another proposal. */
  lemma MarkUnmark(d: Decisions, id: ProposalId, kind: Kind, other: ProposalId)
    ensures Mark(d, false, id, kind).0 == FirstTime ==> Unmark(Mark(d, false, id, kind).1, false, id, kind).1 == d
    ensures forall k, cancelled ::
      id in d && d[id] != k ==> Unmark(d, cancelled, id, k).1 == d && Mark(d, cancelled, id, k).1 == d
    ensures other != id ==> forall cancelled ::
      && (other in Mark(d, cancelled, id, kind).1 <==> other in d)
      && (other in Unmark(d, cancelled, id, kind).1 <==> other in d)
      && (other in d ==> Mark(d, cancelled, id, kind).1[other] == d[other] == Unmark(d, cancelled, id, kind).1[other])
  {
    if Mark(d, false, id, kind).0 == FirstTime {
      assert d[id := kind] - {id} == d;
    }
  }

  /** The proposals after one Record, and after a list of them. */
  function Recorded(items: map<ProposalId, Proposal>, p: Proposal): map<ProposalId, Proposal> {
    if p.id == NIL_ID then items else items[p.id := p]
  }

  function RecordedAll(items: map<ProposalId, Proposal>, ps: seq<Proposal>): map<ProposalId, Proposal> {
    if ps == [] then items else Recorded(RecordedAll(items, ps[..|ps| - 1]), ps[|ps| - 1])
  }

  /** What Lookup answers on a live call. */
  function Find(items: map<ProposalId, Proposal>, id: ProposalId): Found {
    if id in items then Found(items[id]) else NotFound(id)
  }

  /** Once recorded, a proposal is found until the next Record of its id: a list of records of other ids, or of the zero
      id, does not touch it. */
  lemma {:induction false} RecordIsFoundUntilTheNext(items: map<ProposalId, Proposal>, p: Proposal, ps: seq<Proposal>)
    requires p.id != NIL_ID && forall i :: 0 <= i < |ps| ==> ps[i].id != p.id
    ensures Find(RecordedAll(Recorded(items, p), ps), p.id) == Found(p)
  {
    if ps != [] { RecordIsFoundUntilTheNext(items, p, ps[..|ps| - 1]); }
  }

  /** No list of records touches an id that it does not mention. */
  lemma {:induction false} RecordsLeaveOthers(items: map<ProposalId, Proposal>, ps: seq<Proposal>, id: ProposalId)
    requires forall i :: 0 <= i < |ps| ==> ps[i].id != id
    ensures Find(RecordedAll(items, ps), id) == Find(items, id)
  {
    if ps != [] { RecordsLeaveOthers(items, ps[..|ps| - 1], id); }
  }

  class Store {
    var items: map<ProposalId, Proposal>
    var decisions: Decisions

    constructor ()
      ensures items == map[] && decisions == map[]
    {
      items, decisions := map[], map[];
    }

    method MarkDecided(cancelled: bool, id: ProposalId, kind: Kind) returns (r: Marking)
      modifies this`decisions
      ensures (r, decisions) == Mark(old(decisions), cancelled, id, kind)
    {
      if cancelled { return MarkCancelled; }
      if id == NIL_ID { return MarkZeroId; }
      if !ValidKind(kind) { return MarkInvalidKind; }
      if id in decisions {
        if decisions[id] == kind { return Replay; }
        return Conflict(decisions[id]);
      }
      decisions := decisions[id := kind];
      r := FirstTime;
    }

    method UnmarkDecided(cancelled: bool, id: ProposalId, kind: Kind) returns (r: Unmarking)
      modifies this`decisions
      ensures (r, decisions) == Unmark(old(decisions), cancelled, id, kind)
    {
      if cancelled { return UnmarkCancelled; }
      if id == NIL_ID { return UnmarkZeroId; }
      if id in decisions && decisions[id] == kind {
        decisions := decisions - {id};
      }
      r := Unmarked;
    }

    /** A proposal with the zero id is dropped; otherwise the last writer wins. */
    method Record(p: Proposal)
      modifies this`items
      ensures items == Recorded(old(items), p)
      ensures forall id :: id != p.id ==> Find(items, id) == Find(old(items), id)
    {
      if p.id != NIL_ID {
        items := items[p.id := p];
      }
    }

    method Lookup(cancelled: bool, id: ProposalId) returns (r: Found)
      ensures r == if cancelled then LookupCancelled else Find(items, id)
    {
      if cancelled { return LookupCancelled; }
      if id !in items { return NotFound(id); }
      r := Found(items[id]);
    }
  }
}
