/**
 The pending-request table of the harness (harness/src/jsonrpc.ts, RpcClient).  A request is known by its ticket, its
 place in the order of requests; it stands for the promise.  Ids are JavaScript numbers.
 */
module RpcClient {
  import opened Options
  import opened JsonRpc

  type Ticket = nat

  datatype Settlement = Resolved(result: Json) | Rejected(code: real, message: string, data: Option<Json>) | WriteFailed

  /** One promise that was settled, and the response that did it; None when its own write threw. */
  datatype Settled = Settled(ticket: Ticket, how: Settlement, cause: Option<Response>)

  /** `issued` and `settled` are logs. */
  datatype Client = Client(nextId: real, pending: map<real, Ticket>, issued: seq<real>, settled: seq<Settled>)

  const NEW_CLIENT := Client(1.0, map[], [], [])

  /** Every integer up to 2^53 is a double; 2^53 + 1 is not, and rounds back to 2^53. */
  const MAX_EXACT: nat := 0x20_0000_0000_0000

  function Increment(n: real): real {
    if n < MAX_EXACT as real then n + 1.0 else n
  }

  datatype Event = Requested(writes: bool) | Arrived(response: Response)

  /** request: the entry is stored, then the line is written; if the writer throws, the entry is taken out again. */
  function AfterRequest(c: Client, writes: bool): Client {
    var ticket := |c.issued|;
    var issued := Client(Increment(c.nextId), c.pending[c.nextId := ticket], c.issued + [c.nextId], c.settled);
    if writes then issued
    else issued.(pending := c.pending - {c.nextId}, settled := c.settled + [Settled(ticket, WriteFailed, None)])
  }

  predicate Matches(c: Client, r: Response) {
    r.id.NumberId? && r.id.n in c.pending
  }

  function SettlementOf(r: Response): Settlement {
    match r
    case Success(_, result) => Resolved(result)
    case Failure(_, code, message, data) => Rejected(code, message, data)
  }

  /** handleResponse: an unknown id is dropped. */
  function AfterResponse(c: Client, r: Response): Client {
    if !Matches(c, r) then c
    else
      c.(pending := c.pending - {r.id.n}, settled := c.settled + [Settled(c.pending[r.id.n], SettlementOf(r), Some(r))])
  }

  function After(c: Client, e: Event): Client {
    match e
    case Requested(writes) => AfterRequest(c, writes)
    case Arrived(r) => AfterResponse(c, r)
  }

  function Run(events: seq<Event>): Client {
    if events == [] then NEW_CLIENT else After(Run(events[..|events| - 1]), events[|events| - 1])
  }

  // ---------------------------------------------------------------- the invariant

  function IdAt(ticket: Ticket): real {
    if ticket < MAX_EXACT then (ticket + 1) as real else MAX_EXACT as real
  }

  predicate HasSettled(settled: seq<Settled>, ticket: Ticket) {
    exists k :: 0 <= k < |settled| && settled[k].ticket == ticket
  }

  ghost predicate PendingOk(c: Client) {
    && (forall id :: id in c.pending ==> PendingEntryOk(c, id))
    && (forall a, b :: a in c.pending && b in c.pending && c.pending[a] == c.pending[b] ==> a == b)
  }

  ghost predicate PendingEntryOk(c: Client, id: real)
    requires id in c.pending
  {
    c.pending[id] < |c.issued| && c.issued[c.pending[id]] == id && !HasSettled(c.settled, c.pending[id])
  }

  /** A settled ticket was settled by its own failed write, or by a response with the id it was issued. */
  predicate CauseOk(issued: seq<real>, s: Settled) {
    s.ticket < |issued| &&
    match s.cause
    case None => s.how == WriteFailed
    case Some(r) => r.id == NumberId(issued[s.ticket]) && s.how == SettlementOf(r)
  }

  ghost predicate SettledOk(c: Client) {
    && (forall k :: 0 <= k < |c.settled| ==> CauseOk(c.issued, c.settled[k]))
    && (forall j, k :: 0 <= j < k < |c.settled| ==> c.settled[j].ticket != c.settled[k].ticket)
  }

  ghost predicate Inv(c: Client) {
    && c.nextId == IdAt(|c.issued|)
    && (forall t :: 0 <= t < |c.issued| ==> c.issued[t] == IdAt(t))
    && PendingOk(c) && SettledOk(c)
  }

  lemma RequestKeepsInv(c: Client, writes: bool)
    requires Inv(c)
    ensures Inv(AfterRequest(c, writes))
  {
    var c' := AfterRequest(c, writes);
    var ticket := |c.issued|;
    forall k | 0 <= k < |c.settled|
      ensures CauseOk(c'.issued, c.settled[k]) && c.settled[k].ticket != ticket
    {
      assert CauseOk(c.issued, c.settled[k]);
    }
    forall id | id in c'.pending
      ensures PendingEntryOk(c', id)
    {
      if id != c.nextId {
        assert PendingEntryOk(c, id);
      }
    }
    PendingStaysDistinct(c, c.nextId, ticket);
  }

  lemma PendingStaysDistinct(c: Client, id: real, ticket: Ticket)
    requires PendingOk(c) && ticket == |c.issued|
    ensures var p := c.pending[id := ticket]; forall a, b :: a in p && b in p && p[a] == p[b] ==> a == b
  {
    forall a | a in c.pending
      ensures c.pending[a] != ticket
    {
      assert PendingEntryOk(c, a);
    }
  }

  lemma ResponseKeepsInv(c: Client, r: Response)
    requires Inv(c)
    ensures Inv(AfterResponse(c, r))
  {
    var c' := AfterResponse(c, r);
    if Matches(c, r) {
      var ticket := c.pending[r.id.n];
      assert PendingEntryOk(c, r.id.n);
      forall id | id in c'.pending
        ensures PendingEntryOk(c', id)
      {
        assert PendingEntryOk(c, id);
      }
      forall k | 0 <= k < |c.settled|
        ensures c.settled[k].ticket != ticket
      {
        assert CauseOk(c.issued, c.settled[k]);
      }
    }
  }

  lemma {:induction false} RunKeepsInv(events: seq<Event>)
    ensures Inv(Run(events))
  {
    if events != [] {
      var c, e := Run(events[..|events| - 1]), events[|events| - 1];
      RunKeepsInv(events[..|events| - 1]);
      match e
      case Requested(writes) => RequestKeepsInv(c, writes);
      case Arrived(r) => ResponseKeepsInv(c, r);
    }
  }

  // ---------------------------------------------------------------- what it gives

  /** A promise is settled at most once, whatever responses arrive, however often, and for whatever ids. */
  lemma SettledAtMostOnce(events: seq<Event>, j: nat, k: nat)
    requires j < |Run(events).settled| && k < |Run(events).settled|
    requires Run(events).settled[j].ticket == Run(events).settled[k].ticket
    ensures j == k
  {
    RunKeepsInv(events);
    assert j < k || k < j || j == k;
  }

  /** What settles a promise is the failure of its own write, or a response that carries the id it was issued; and it
      is told exactly what that response says. */
  lemma SettledByOwnResponse(events: seq<Event>, k: nat)
    requires k < |Run(events).settled|
    ensures var issued, s := Run(events).issued, Run(events).settled[k];
      s.ticket < |issued| &&
      match s.cause
      case None => s.how == WriteFailed
      case Some(Success(id, result)) => id == NumberId(issued[s.ticket]) && s.how == Resolved(result)
      case Some(Failure(id, code, message, data)) =>
        id == NumberId(issued[s.ticket]) && s.how == Rejected(code, message, data)
  {
    RunKeepsInv(events);
    assert CauseOk(Run(events).issued, Run(events).settled[k]);
  }

  /** Ids are never reused exactly as long as no more than 2^53 requests are made. */
  lemma IdsAreUniqueIff(events: seq<Event>)
    ensures (forall i, j :: 0 <= i < j < |Run(events).issued| ==> Run(events).issued[i] != Run(events).issued[j])
      <==> |Run(events).issued| <= MAX_EXACT
  {
    RunKeepsInv(events);
    var issued := Run(events).issued;
    if |issued| > MAX_EXACT {
      assert issued[MAX_EXACT - 1] == issued[MAX_EXACT];
    }
  }

  /** Every request issued is pending or settled. */
  predicate Balanced(c: Client) { |c.issued| == |c.pending| + |c.settled| }

  /** A response never upsets the balance; a request does so exactly when its id is still taken by an earlier one,
      whose promise then can never be settled. */
  lemma BalanceKeptIff(c: Client, e: Event)
    requires Balanced(c)
    ensures Balanced(After(c, e)) <==> e.Arrived? || c.nextId !in c.pending
  {
    StepLoses(c, e);
  }

  lemma RequestCounts(pending: map<real, Ticket>, id: real, ticket: Ticket)
    ensures |pending[id := ticket]| == |pending| + if id in pending then 0 else 1
    ensures |pending - {id}| == |pending| - if id in pending then 1 else 0
  {
    assert pending[id := ticket].Keys == pending.Keys + {id};
    Taken(pending, id);
  }

  lemma Taken(pending: map<real, Ticket>, id: real)
    ensures |pending - {id}| == |pending| - if id in pending then 1 else 0
  {
    assert (pending - {id}).Keys == pending.Keys - {id};
  }

  lemma NextIdIsFree(c: Client)
    requires Inv(c) && |c.issued| < MAX_EXACT
    ensures c.nextId !in c.pending
  {
    forall id | id in c.pending
      ensures id != c.nextId
    {
      assert PendingEntryOk(c, id);
    }
  }

  /** Up to 2^53 requests, every request issued is pending or settled, and never both. */
  lemma {:induction false} IssuedIsPendingPlusSettled(events: seq<Event>)
    requires |Run(events).issued| <= MAX_EXACT
    ensures Balanced(Run(events))
    ensures forall id :: id in Run(events).pending ==> !HasSettled(Run(events).settled, Run(events).pending[id])
  {
    RunKeepsInv(events);
    forall id | id in Run(events).pending
      ensures !HasSettled(Run(events).settled, Run(events).pending[id])
    {
      assert PendingEntryOk(Run(events), id);
    }
    if events != [] {
      var before := events[..|events| - 1];
      var c := Run(before);
      IssuedIsPendingPlusSettled(before);
      RunKeepsInv(before);
      if events[|events| - 1].Requested? { NextIdIsFree(c); }
      BalanceKeptIff(c, events[|events| - 1]);
    }
  }

  /** The next event is a request whose id an earlier promise still holds. */
  predicate Overwrites(c: Client, e: Event) { e.Requested? && c.nextId in c.pending }

  predicate OverwritesAt(events: seq<Event>, k: nat)
    requires k < |events|
  {
    Overwrites(Run(events[..k]), events[k])
  }

  /** How many promises a run has dropped from the table unsettled. */
  function Lost(events: seq<Event>): nat {
    if events == [] then 0
    else
      var front := events[..|events| - 1];
      Lost(front) + if Overwrites(Run(front), events[|events| - 1]) then 1 else 0
  }

  lemma StepLoses(c: Client, e: Event)
    ensures |After(c, e).issued| - |After(c, e).pending| - |After(c, e).settled|
      == |c.issued| - |c.pending| - |c.settled| + if Overwrites(c, e) then 1 else 0
  {
    match e
    case Requested(writes) => RequestCounts(c.pending, c.nextId, |c.issued|);
    case Arrived(r) => if Matches(c, r) { Taken(c.pending, r.id.n); }
  }

  /** The balance of every run, however long: a promise is pending, settled, or one of those lost. */
  lemma {:induction false} IssuedIsPendingSettledOrLost(events: seq<Event>)
    ensures |Run(events).issued| == |Run(events).pending| + |Run(events).settled| + Lost(events)
  {
    if events != [] {
      var front := events[..|events| - 1];
      IssuedIsPendingSettledOrLost(front);
      StepLoses(Run(front), events[|events| - 1]);
    }
  }

  lemma {:induction false} LostIffOverwritten(events: seq<Event>)
    ensures Lost(events) == 0 <==> forall k :: 0 <= k < |events| ==> !OverwritesAt(events, k)
  {
    if events != [] {
      var n := |events| - 1;
      LostIffOverwritten(events[..n]);
      forall k | 0 <= k < n
        ensures OverwritesAt(events[..n], k) == OverwritesAt(events, k)
      {
        assert events[..n][..k] == events[..k];
      }
      assert Lost(events) == 0 <==> Lost(events[..n]) == 0 && !OverwritesAt(events, n);
    }
  }

  /** A run is in balance exactly when none of its requests met an id still pending: no later event makes up for it. */
  lemma BalancedIff(events: seq<Event>)
    ensures Balanced(Run(events)) <==> forall k :: 0 <= k < |events| ==> !OverwritesAt(events, k)
  {
    IssuedIsPendingSettledOrLost(events);
    LostIffOverwritten(events);
  }

  /** The run that shows it: one request more, all of them written, none answered.  Two requests share an id, and one
      of their promises is lost: it is neither pending nor settled. */
  lemma OneRequestTooMany()
    ensures var c := Run(Requests(MAX_EXACT + 1));
      |c.issued| == MAX_EXACT + 1 && c.issued[MAX_EXACT - 1] == c.issued[MAX_EXACT] && !Balanced(c)
  {
    RunKeepsInv(Requests(MAX_EXACT + 1));
    RunKeepsInv(Requests(MAX_EXACT));
    OnlyRequests(MAX_EXACT);
    OnlyRequests(MAX_EXACT + 1);
    IssuedIsPendingPlusSettled(Requests(MAX_EXACT));
    assert Requests(MAX_EXACT + 1)[..MAX_EXACT] == Requests(MAX_EXACT);
    BalanceKeptIff(Run(Requests(MAX_EXACT)), Requested(true));
  }

  function Requests(n: nat): seq<Event> { seq(n, i => Requested(true)) }

  lemma {:induction false} OnlyRequests(n: nat)
    ensures |Run(Requests(n)).issued| == n
    ensures n > 0 ==> IdAt(n - 1) in Run(Requests(n)).pending
  {
    if n > 0 {
      assert Requests(n)[..n - 1] == Requests(n - 1);
      OnlyRequests(n - 1);
      RunKeepsInv(Requests(n - 1));
    }
  }

  // ---------------------------------------------------------------- the class

  class PendingRequests {
    var nextId: real
    var pending: map<real, Ticket>
    var issued: seq<real>
    var settled: seq<Settled>
    var unknown: seq<Id>

    ghost function View(): Client
      reads this
    {
      Client(nextId, pending, issued, settled)
    }

    constructor ()
      ensures View() == NEW_CLIENT && unknown == []
    {
      nextId, pending, issued, settled, unknown := 1.0, map[], [], [], [];
    }

    /** `writes` says whether the writer returns or throws; it does not call back. */
    method Send(writes: bool) returns (id: real)
      modifies this`nextId, this`pending, this`issued, this`settled
      ensures View() == AfterRequest(old(View()), writes) && id == old(nextId)
    {
      id := nextId;
      nextId := Increment(nextId);
      var ticket := |issued|;
      issued := issued + [id];
      pending := pending[id := ticket];
      if !writes {
        pending := pending - {id};
        settled := settled + [Settled(ticket, WriteFailed, None)];
      }
      assert old(pending)[id := ticket] - {id} == old(pending) - {id};
    }

    method HandleResponse(r: Response) returns (matched: bool)
      modifies this`pending, this`settled, this`unknown
      ensures View() == AfterResponse(old(View()), r) && matched == Matches(old(View()), r)
      ensures unknown == if matched then old(unknown) else old(unknown) + [r.id]
    {
      if !r.id.NumberId? {
        unknown := unknown + [r.id];
        return false;
      }
      if r.id.n !in pending {
        unknown := unknown + [r.id];
        return false;
      }
      var ticket := pending[r.id.n];
      pending := pending - {r.id.n};
      match r {
        case Success(_, result) => settled := settled + [Settled(ticket, Resolved(result), Some(r))];
        case Failure(_, code, message, data) =>
          settled := settled + [Settled(ticket, Rejected(code, message, data), Some(r))];
      }
      return true;
    }

    /** A line that does not parse settles nothing. */
    method HandleResponseLine(line: Line) returns (parsed: ParsedResponse)
      modifies this`pending, this`settled, this`unknown
      ensures parsed == ParseResponse(line)
      ensures View() == if parsed.Answer? then AfterResponse(old(View()), parsed.response) else old(View())
    {
      parsed := ParseResponse(line);
      if parsed.Answer? {
        var matched := HandleResponse(parsed.response);
      }
    }
  }
}
