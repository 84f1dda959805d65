/** createOrUpdate against an API server that others write to as well: optimistic
    concurrency on a versioned object, with one retry (core and REST tiers) or none
    (infrastructure tier). */
module Upsert {

  // ------------------------------------------------------------- the server

  datatype Cell<T> = Absent | Present(version: nat, content: T)

  datatype Foreign<T> = Store(content: T) | Remove

  /** What happened to the object, in order; a refused write left it alone. */
  datatype Event<T> =
    | Got(outcome: Outcome, version: nat)
    | Created(content: T) | Updated(used: nat, content: T) | Refused(update: bool)
    | Others(write: Foreign<T>)

  /** `clock` is the version of the next write. */
  datatype Server<T> = Server(cell: Cell<T>, clock: nat, history: seq<Event<T>>)

  /** What surrounds one request: the writes of others that land before it is
      served, and whether it fails for a reason of its own. */
  datatype Moment<T> = Moment(writes: seq<Foreign<T>>, fault: bool)

  type Schedule<!T> = nat -> Moment<T>

  function Foreign1<T>(s: Server<T>, w: Foreign<T>): Server<T> {
    Server(if w.Store? then Present(s.clock, w.content) else Absent, s.clock + 1, s.history + [Others(w)])
  }

  function Settle<T>(s: Server<T>, ws: seq<Foreign<T>>): Server<T> {
    if ws == [] then s else Foreign1(Settle(s, ws[..|ws| - 1]), ws[|ws| - 1])
  }

  datatype Outcome = Ok | NotFound | Conflict | Failed

  datatype Read<T> = Read(server: Server<T>, outcome: Outcome, version: nat)

  datatype Wrote<T> = Wrote(server: Server<T>, outcome: Outcome)

  function ServeGet<T>(s: Server<T>, m: Moment<T>): Read<T> {
    var t := Settle(s, m.writes);
    var outcome := if m.fault then Failed else if t.cell.Absent? then NotFound else Ok;
    var version := if outcome == Ok then t.cell.version else 0;
    Read(t.(history := t.history + [Got(outcome, version)]), outcome, version)
  }

  function ServeCreate<T>(s: Server<T>, desired: T, m: Moment<T>): Wrote<T> {
    var t := Settle(s, m.writes);
    if m.fault || t.cell.Present? then Wrote(t.(history := t.history + [Refused(false)]), Failed)
    else Wrote(Server(Present(t.clock, desired), t.clock + 1, t.history + [Created(desired)]), Ok)
  }

  function ServeUpdate<T>(s: Server<T>, desired: T, version: nat, m: Moment<T>): Wrote<T> {
    var t := Settle(s, m.writes);
    var refused := t.(history := t.history + [Refused(true)]);
    if m.fault then Wrote(refused, Failed)
    else if t.cell.Absent? then Wrote(refused, NotFound)
    else if t.cell.version != version then Wrote(refused, Conflict)
    else Wrote(Server(Present(t.clock, desired), t.clock + 1, t.history + [Updated(version, desired)]), Ok)
  }

  // --------------------------------------------------------- the two upserts

  /** Get, then create or update. */
  function Once<T>(s: Server<T>, desired: T, at: Schedule<T>): Wrote<T> {
    var got := ServeGet(s, at(0));
    match got.outcome
    case Ok => ServeUpdate(got.server, desired, got.version, at(1))
    case NotFound => ServeCreate(got.server, desired, at(1))
    case _ => Wrote(got.server, got.outcome)
  }

  function Again<T>(s: Server<T>, desired: T, get: Moment<T>, update: Moment<T>): Wrote<T> {
    var got := ServeGet(s, get);
    if got.outcome != Ok then Wrote(got.server, got.outcome) else ServeUpdate(got.server, desired, got.version, update)
  }

  /** The same, with a second get and update after a conflict. */
  function WithRetry<T>(s: Server<T>, desired: T, at: Schedule<T>): Wrote<T> {
    var got := ServeGet(s, at(0));
    match got.outcome
    case NotFound => ServeCreate(got.server, desired, at(1))
    case Ok =>
      var first := ServeUpdate(got.server, desired, got.version, at(1));
      if first.outcome != Conflict then first
      else
        Again(first.server, desired, at(2), at(3))
    case _ => Wrote(got.server, got.outcome)
  }

  // ---------------------------------------------------------------- as written

  class Client<T(!new)> {
    var server: Server<T>
    var requests: nat
    const at: Schedule<T>

    constructor (s: Server<T>, schedule: Schedule<T>)
      ensures server == s && requests == 0 && at == schedule
    {
      server, requests, at := s, 0, schedule;
    }

    method Get() returns (outcome: Outcome, version: nat)
      modifies this
      ensures Read(server, outcome, version) == ServeGet(old(server), at(old(requests)))
              && requests == old(requests) + 1
    {
      var r := ServeGet(server, at(requests));
      server, requests := r.server, requests + 1;
      return r.outcome, r.version;
    }

    method Create(desired: T) returns (outcome: Outcome)
      modifies this
      ensures Wrote(server, outcome) == ServeCreate(old(server), desired, at(old(requests)))
              && requests == old(requests) + 1
    {
      var r := ServeCreate(server, desired, at(requests));
      server, requests := r.server, requests + 1;
      return r.outcome;
    }

    method Update(desired: T, version: nat) returns (outcome: Outcome)
      modifies this
      ensures Wrote(server, outcome) == ServeUpdate(old(server), desired, version, at(old(requests)))
              && requests == old(requests) + 1
    {
      var r := ServeUpdate(server, desired, version, at(requests));
      server, requests := r.server, requests + 1;
      return r.outcome;
    }

    /** createOrUpdate of the core and REST tiers. */
    method CreateOrUpdate(desired: T) returns (outcome: Outcome)
      requires requests == 0
      modifies this
      ensures Wrote(server, outcome) == WithRetry(old(server), desired, at)
    {
      var resourceVersion;
      outcome, resourceVersion := Get();
      if outcome != Ok {
        if outcome == NotFound { outcome := Create(desired); }
        return;
      }
      outcome := Update(desired, resourceVersion);
      if outcome == Conflict {
        outcome, resourceVersion := Get();
        if outcome != Ok { return; }
        outcome := Update(desired, resourceVersion);
      }
    }

    /** createOrUpdate of the infrastructure tier. */
    method CreateOrUpdateOnce(desired: T) returns (outcome: Outcome)
      requires requests == 0
      modifies this
      ensures Wrote(server, outcome) == Once(old(server), desired, at)
    {
      var resourceVersion;
      outcome, resourceVersion := Get();
      if outcome != Ok {
        if outcome == NotFound { outcome := Create(desired); }
        return;
      }
      outcome := Update(desired, resourceVersion);
    }
  }

  // ---------------------------------------------------------------- properties

  /** Versions are handed out in increasing order. */
  predicate Sane<T>(s: Server<T>) { s.cell.Present? ==> s.cell.version < s.clock }

  datatype Tally = Tally(gets: nat, updates: nat, own: nat)

  function Plus(a: Tally, b: Tally): Tally { Tally(a.gets + b.gets, a.updates + b.updates, a.own + b.own) }

  function One<T>(e: Event<T>): Tally {
    Tally(if e.Got? then 1 else 0,
          if e.Updated? || (e.Refused? && e.update) then 1 else 0,
          if e.Created? || e.Updated? then 1 else 0)
  }

  /** Gets and updates issued, and writes landed, by the operator. */
  function Count<T>(events: seq<Event<T>>): Tally {
    if events == [] then Tally(0, 0, 0) else Plus(Count(events[..|events| - 1]), One(events[|events| - 1]))
  }

  /** From `s` to `t` the operator did this much. */
  ghost predicate Took<T>(s: Server<T>, t: Server<T>, n: Tally) {
    s.history <= t.history && Count(t.history) == Plus(Count(s.history), n)
  }

  lemma TookTwo<T>(s: Server<T>, t: Server<T>, u: Server<T>, m: Tally, n: Tally)
    requires Took(s, t, m) && Took(t, u, n)
    ensures Took(s, u, Plus(m, n))
  {
  }

  lemma TookOne<T>(s: Server<T>, t: Server<T>, e: Event<T>)
    requires t.history == s.history + [e]
    ensures Took(s, t, One(e))
  {
    assert t.history[..|t.history| - 1] == s.history;
  }

  /** Others may do what they like: versions grow, so an old version still in place
      means that nothing landed. */
  lemma {:induction false} SettleFacts<T>(s: Server<T>, ws: seq<Foreign<T>>)
    requires Sane(s)
    ensures var t := Settle(s, ws);
            && Sane(t) && s.clock <= t.clock && Took(s, t, Tally(0, 0, 0))
            && (t.cell.Present? && t.cell.version < s.clock ==> ws == [])
            && ((forall i | 0 <= i < |ws| :: ws[i].Store?) && s.cell.Present? ==>
                  t.cell.Present? && (ws != [] ==> t.cell.version >= s.clock))
  {
    if ws != [] {
      var before := Settle(s, ws[..|ws| - 1]);
      SettleFacts(s, ws[..|ws| - 1]);
      TookOne(before, Settle(s, ws), Others(ws[|ws| - 1]));
      TookTwo(s, before, Settle(s, ws), Tally(0, 0, 0), Tally(0, 0, 0));
    }
  }

  predicate EndsWith<T(==)>(s: Server<T>, e: Event<T>) { s.history != [] && s.history[|s.history| - 1] == e }

  /** Others settle, then the operator's request leaves one event. */
  lemma TookRequest<T>(s: Server<T>, ws: seq<Foreign<T>>, t: Server<T>, e: Event<T>)
    requires Sane(s) && t.history == Settle(s, ws).history + [e]
    ensures Took(s, t, One(e))
  {
    SettleFacts(s, ws);
    TookOne(Settle(s, ws), t, e);
    TookTwo(s, Settle(s, ws), t, Tally(0, 0, 0), One(e));
  }

  lemma GetFacts<T>(s: Server<T>, m: Moment<T>)
    requires Sane(s)
    ensures var r := ServeGet(s, m);
            && Sane(r.server) && EndsWith(r.server, Got(r.outcome, r.version))
            && r.outcome != Conflict && (r.outcome == Ok ==> r.version < r.server.clock)
  {
    SettleFacts(s, m.writes);
  }

  lemma GetTook<T>(s: Server<T>, m: Moment<T>)
    requires Sane(s)
    ensures Took(s, ServeGet(s, m).server, Tally(1, 0, 0))
  {
    TookRequest(s, m.writes, ServeGet(s, m).server, Got(ServeGet(s, m).outcome, ServeGet(s, m).version));
  }

  lemma CreateFacts<T>(s: Server<T>, desired: T, m: Moment<T>)
    requires Sane(s)
    ensures var r := ServeCreate(s, desired, m);
            && r.outcome != Conflict
            && (r.outcome == Ok
               ==> EndsWith(r.server, Created(desired)) && r.server.cell == Present(r.server.clock - 1, desired))
  {
  }

  lemma CreateTook<T>(s: Server<T>, desired: T, m: Moment<T>)
    requires Sane(s)
    ensures var r := ServeCreate(s, desired, m); Took(s, r.server, Tally(0, 0, if r.outcome == Ok then 1 else 0))
  {
    var r := ServeCreate(s, desired, m);
    TookRequest(s, m.writes, r.server, if r.outcome == Ok then Created(desired) else Refused(false));
  }

  lemma UpdateFacts<T>(s: Server<T>, desired: T, version: nat, m: Moment<T>)
    requires Sane(s) && version < s.clock
    ensures var r := ServeUpdate(s, desired, version, m);
            && Sane(r.server)
            && (r.outcome == Ok ==>
                  r.server.history == s.history + [Updated(version, desired)]
                      && r.server.cell == Present(r.server.clock - 1, desired))
  {
    SettleFacts(s, m.writes);
  }

  lemma UpdateTook<T>(s: Server<T>, desired: T, version: nat, m: Moment<T>)
    requires Sane(s)
    ensures var r := ServeUpdate(s, desired, version, m);
            Took(s, r.server, Tally(0, 1, if r.outcome == Ok then 1 else 0))
  {
    var r := ServeUpdate(s, desired, version, m);
    TookRequest(s, m.writes, r.server, if r.outcome == Ok then Updated(version, desired) else Refused(true));
  }

  /** The last thing recorded is the operator's write of `desired`: a creation, or an
      update with the version of the get right before it, nothing in between. */
  ghost predicate Landed<T>(t: Server<T>, desired: T) {
    && t.cell.Present? && t.cell.content == desired
    && var h := t.history;
       || (|h| >= 1 && h[|h| - 1] == Created(desired))
       || (|h| >= 2 && h[|h| - 2].Got? && h[|h| - 2].outcome == Ok
          && h[|h| - 1] == Updated(h[|h| - 2].version, desired))
  }

  /** What the retrying form does, told through the plain one. */
  lemma RetryContinues<T>(s: Server<T>, desired: T, at: Schedule<T>)
    requires Sane(s)
    ensures var first := Once(s, desired, at);
            if first.outcome != Conflict then WithRetry(s, desired, at) == first
            else Sane(first.server) && WithRetry(s, desired, at) == Again(first.server, desired, at(2), at(3))
  {
    var got := ServeGet(s, at(0));
    GetFacts(s, at(0));
    if got.outcome == Ok {
      UpdateFacts(got.server, desired, got.version, at(1));
    } else if got.outcome == NotFound {
      CreateFacts(got.server, desired, at(1));
    }
  }

  /** At most `limit` requests of each kind, and exactly one write if all went well. */
  ghost predicate Frugal<T>(s: Server<T>, r: Wrote<T>, limit: nat) {
    && s.history <= r.server.history
    && var was, now := Count(s.history), Count(r.server.history);
       && now.gets <= was.gets + limit && now.updates <= was.updates + limit
       && now.own == was.own + (if r.outcome == Ok then 1 else 0)
  }

  lemma OnceFrugal<T>(s: Server<T>, desired: T, at: Schedule<T>)
    requires Sane(s)
    ensures Frugal(s, Once(s, desired, at), 1)
  {
    var got, r := ServeGet(s, at(0)), Once(s, desired, at);
    GetFacts(s, at(0));
    GetTook(s, at(0));
    var own := if r.outcome == Ok then 1 else 0;
    if got.outcome == Ok {
      UpdateTook(got.server, desired, got.version, at(1));
      TookTwo(s, got.server, r.server, Tally(1, 0, 0), Tally(0, 1, own));
    } else if got.outcome == NotFound {
      CreateTook(got.server, desired, at(1));
      TookTwo(s, got.server, r.server, Tally(1, 0, 0), Tally(0, 0, own));
    }
  }

  lemma AgainFrugal<T>(s: Server<T>, desired: T, get: Moment<T>, update: Moment<T>)
    requires Sane(s)
    ensures Frugal(s, Again(s, desired, get, update), 1)
  {
    var got, r := ServeGet(s, get), Again(s, desired, get, update);
    GetFacts(s, get);
    GetTook(s, get);
    if got.outcome == Ok {
      UpdateTook(got.server, desired, got.version, update);
      TookTwo(s, got.server, r.server, Tally(1, 0, 0), Tally(0, 1, if r.outcome == Ok then 1 else 0));
    }
  }

  lemma FrugalTwo<T>(s: Server<T>, first: Wrote<T>, r: Wrote<T>)
    requires Frugal(s, first, 1) && first.outcome != Ok && Frugal(first.server, r, 1)
    ensures Frugal(s, r, 2)
  {
  }

  lemma RetryFrugal<T>(s: Server<T>, desired: T, at: Schedule<T>)
    requires Sane(s)
    ensures Frugal(s, WithRetry(s, desired, at), 2)
  {
    OnceFrugal(s, desired, at);
    RetryContinues(s, desired, at);
    var first := Once(s, desired, at);
    if first.outcome == Conflict {
      AgainFrugal(first.server, desired, at(2), at(3));
      FrugalTwo(s, first, Again(first.server, desired, at(2), at(3)));
    }
  }

  /** Under any interference, either form: success means that exactly one write of
      this call landed, that it stored the desired content, and that nobody wrote
      between the read whose version it used and the write; failure means that none
      landed; at most one read and one update are issued, or two with the retry. */
  lemma UpsertExact<T>(s: Server<T>, desired: T, at: Schedule<T>)
    requires Sane(s)
    ensures Frugal(s, Once(s, desired, at), 1) && Frugal(s, WithRetry(s, desired, at), 2)
    ensures Once(s, desired, at).outcome == Ok ==> Landed(Once(s, desired, at).server, desired)
    ensures WithRetry(s, desired, at).outcome == Ok ==> Landed(WithRetry(s, desired, at).server, desired)
  {
    OnceFrugal(s, desired, at);
    RetryFrugal(s, desired, at);
    if Once(s, desired, at).outcome == Ok { OnceLands(s, desired, at); }
    RetryContinues(s, desired, at);
    var first := Once(s, desired, at);
    if first.outcome == Conflict { ReadUpdateLands(first.server, desired, at(2), at(3)); }
  }

  lemma ReadUpdateLands<T>(s: Server<T>, desired: T, get: Moment<T>, update: Moment<T>)
    requires Sane(s)
    ensures var got := ServeGet(s, get);
            var r := ServeUpdate(got.server, desired, got.version, update);
            got.outcome == Ok && r.outcome == Ok ==> Landed(r.server, desired)
  {
    GetFacts(s, get);
    var got := ServeGet(s, get);
    if got.outcome == Ok { UpdateFacts(got.server, desired, got.version, update); }
  }

  lemma OnceLands<T>(s: Server<T>, desired: T, at: Schedule<T>)
    requires Sane(s) && Once(s, desired, at).outcome == Ok
    ensures Landed(Once(s, desired, at).server, desired)
  {
    GetFacts(s, at(0));
    ReadUpdateLands(s, desired, at(0), at(1));
    CreateFacts(ServeGet(s, at(0)).server, desired, at(1));
  }

  /** The retrying form refines the plain one: on every schedule on which the plain
      one succeeds it succeeds too, and leaves the same server. */
  lemma RetryRefinesOnce<T>(s: Server<T>, desired: T, at: Schedule<T>)
    requires Sane(s) && Once(s, desired, at).outcome == Ok
    ensures WithRetry(s, desired, at) == Once(s, desired, at)
  {
    RetryContinues(s, desired, at);
  }

  // ----------------------------------------------- exactly when they succeed

  /** The last of these writes leaves an object behind. */
  predicate LeavesOne<T>(ws: seq<Foreign<T>>) { ws != [] && ws[|ws| - 1].Store? }

  /** Whether there is an object after these writes, given whether there was before. */
  predicate There<T>(before: bool, ws: seq<Foreign<T>>) { if ws == [] then before else LeavesOne(ws) }

  lemma SettleThere<T>(s: Server<T>, ws: seq<Foreign<T>>)
    ensures Settle(s, ws).cell.Present? <==> There(s.cell.Present?, ws)
    ensures ws != [] && Settle(s, ws).cell.Present? ==> Settle(s, ws).cell.content == ws[|ws| - 1].content
  {
  }

  /** An update with a version just read goes through exactly if nobody writes in between;
      it conflicts exactly if somebody does and leaves an object. */
  lemma ReadThenUpdate<T>(s: Server<T>, desired: T, get: Moment<T>, update: Moment<T>)
    requires Sane(s) && !get.fault && There(s.cell.Present?, get.writes)
    ensures var got := ServeGet(s, get);
            && got.outcome == Ok
            && var r := ServeUpdate(got.server, desired, got.version, update);
               && (r.outcome == Ok <==> !update.fault && update.writes == [])
               && (r.outcome == Conflict <==> !update.fault && LeavesOne(update.writes))
               && Sane(r.server) && (r.outcome == Conflict ==> r.server.cell.Present?)
  {
    var got := ServeGet(s, get);
    SettleFacts(s, get.writes);
    SettleThere(s, get.writes);
    SettleFacts(got.server, update.writes);
    SettleThere(got.server, update.writes);
  }

  /** Where no object is read, one is created exactly if the request does not fail and
      nobody else leaves one there first; theirs stays as it is. */
  lemma ReadThenCreate<T>(s: Server<T>, desired: T, get: Moment<T>, create: Moment<T>)
    requires !get.fault && !There(s.cell.Present?, get.writes)
    ensures var got := ServeGet(s, get);
            && got.outcome == NotFound
            && var r := ServeCreate(got.server, desired, create);
               && (r.outcome == Ok <==> !create.fault && !LeavesOne(create.writes))
               && (r.outcome == Ok ==> EndsWith(r.server, Created(desired)) && Content(r.server.cell) == Some(desired))
               && (LeavesOne(create.writes)
                   ==> Content(r.server.cell) == Some(create.writes[|create.writes| - 1].content))
  {
    SettleThere(s, get.writes);
    SettleThere(ServeGet(s, get).server, create.writes);
  }

  /** First read and first write meet no fault of their own. */
  ghost predicate Served<T(!new)>(at: Schedule<T>) { !at(0).fault && !at(1).fault }

  /** On every server and every schedule. The plain form succeeds exactly when read and
      write go through and, if it finds an object, nobody writes between the two, or, if
      it finds none, nobody leaves one there in between. The retrying form succeeds
      exactly when that holds, or when somebody's object made the update conflict, is
      still there at the second read, and is left alone until the second update. */
  lemma SuccessExactly<T(!new)>(s: Server<T>, desired: T, at: Schedule<T>)
    requires Sane(s)
    ensures var found := There(s.cell.Present?, at(0).writes);
            var plain := Served(at) && if found then at(1).writes == [] else !LeavesOne(at(1).writes);
            && (Once(s, desired, at).outcome == Ok <==> plain)
            && (WithRetry(s, desired, at).outcome == Ok <==>
                  || plain
                  || (Served(at) && found && LeavesOne(at(1).writes)
                      && !at(2).fault && !at(3).fault && There(true, at(2).writes) && at(3).writes == []))
  {
    if !at(0).fault {
      if There(s.cell.Present?, at(0).writes) {
        var got := ServeGet(s, at(0));
        ReadThenUpdate(s, desired, at(0), at(1));
        var first := ServeUpdate(got.server, desired, got.version, at(1));
        if first.outcome == Conflict { AgainExactly(first.server, desired, at(2), at(3)); }
      } else {
        ReadThenCreate(s, desired, at(0), at(1));
      }
    }
  }

  lemma AgainExactly<T>(s: Server<T>, desired: T, get: Moment<T>, update: Moment<T>)
    requires Sane(s) && s.cell.Present?
    ensures Again(s, desired, get, update).outcome == Ok
            <==> !get.fault && !update.fault && There(true, get.writes) && update.writes == []
  {
    SettleThere(s, get.writes);
    if !get.fault && There(true, get.writes) { ReadThenUpdate(s, desired, get, update); }
  }

  /** The first write of an object: where none is found, either form creates it exactly if
      nobody else leaves one there first; then it holds the desired content, and otherwise
      what the other wrote. */
  lemma AbsentIsCreated<T(!new)>(s: Server<T>, desired: T, at: Schedule<T>)
    requires Served(at) && !There(s.cell.Present?, at(0).writes)
    ensures forall r | r == Once(s, desired, at) || r == WithRetry(s, desired, at) ::
              && (r.outcome == Ok <==> !LeavesOne(at(1).writes))
              && (r.outcome == Ok ==> EndsWith(r.server, Created(desired)) && Content(r.server.cell) == Some(desired))
              && (r.outcome != Ok ==> Content(r.server.cell) == Some(at(1).writes[|at(1).writes| - 1].content))
  {
    ReadThenCreate(s, desired, at(0), at(1));
  }

  /** In particular one foreign update of an object that exists throughout never fails the
      retrying form. */
  lemma OneForeignUpdateIsHarmless<T(!new)>(s: Server<T>, desired: T, at: Schedule<T>)
    requires Sane(s) && s.cell.Present?
    requires forall k: nat | k < 4 :: !at(k).fault && OnlyStores(at(k).writes)
    requires |at(0).writes| + |at(1).writes| + |at(2).writes| + |at(3).writes| <= 1
    ensures WithRetry(s, desired, at).outcome == Ok
  {
    SuccessExactly(s, desired, at);
  }

  predicate OnlyStores<T>(ws: seq<Foreign<T>>) { forall i | 0 <= i < |ws| :: ws[i].Store? }

  // ------------------------------------------------- what the history tells

  datatype Option<T> = None | Some(value: T)

  function Content<T>(cell: Cell<T>): Option<T> { if cell.Present? then Some(cell.content) else None }

  /** What the object holds after these events, if there is one. */
  function Held<T>(before: Option<T>, events: seq<Event<T>>): Option<T> {
    if events == [] then before
    else
      match events[|events| - 1]
      case Created(content) => Some(content)
      case Updated(_, content) => Some(content)
      case Others(Store(content)) => Some(content)
      case Others(Remove) => None
      case _ => Held(before, events[..|events| - 1])
  }

  predicate Fits<T>(before: Option<T>, e: Event<T>) { (e.Created? ==> before.None?) && (e.Updated? ==> before.Some?) }

  /** From `s` to `t` nothing was created over an object, nothing updated where there was
      none, and the object is what the writes of all made it. */
  ghost predicate Lawful<T(!new)>(s: Server<T>, t: Server<T>) {
    && s.history <= t.history
    && var news := t.history[|s.history|..];
       && Content(t.cell) == Held(Content(s.cell), news)
       && forall i | 0 <= i < |news| :: Fits(Held(Content(s.cell), news[..i]), news[i])
  }

  lemma {:induction false} HeldTwo<T>(before: Option<T>, a: seq<Event<T>>, b: seq<Event<T>>)
    ensures Held(before, a + b) == Held(Held(before, a), b)
  {
    if b == [] {
      assert a + b == a;
    } else {
      assert (a + b)[..|a + b| - 1] == a + b[..|b| - 1];
      HeldTwo(before, a, b[..|b| - 1]);
    }
  }

  lemma LawfulStep<T(!new)>(s: Server<T>, t: Server<T>, u: Server<T>, e: Event<T>)
    requires Lawful(s, t) && u.history == t.history + [e] && Fits(Content(t.cell), e)
    requires Content(u.cell) == Held(Content(t.cell), [e])
    ensures Lawful(s, u)
  {
    var old_, news := t.history[|s.history|..], u.history[|s.history|..];
    assert news == old_ + [e];
    HeldTwo(Content(s.cell), old_, [e]);
    forall i | 0 <= i < |news| ensures Fits(Held(Content(s.cell), news[..i]), news[i]) {
      assert i <= |old_| && news[..i] == old_[..i];
      assert old_[..|old_|] == old_;
    }
  }

  lemma {:induction false} LawfulSettle<T(!new)>(s: Server<T>, t: Server<T>, ws: seq<Foreign<T>>)
    requires Lawful(s, t)
    ensures Lawful(s, Settle(t, ws))
  {
    if ws != [] {
      LawfulSettle(s, t, ws[..|ws| - 1]);
      LawfulStep(s, Settle(t, ws[..|ws| - 1]), Settle(t, ws), Others(ws[|ws| - 1]));
    }
  }

  lemma LawfulGet<T(!new)>(s: Server<T>, t: Server<T>, m: Moment<T>)
    requires Lawful(s, t)
    ensures Lawful(s, ServeGet(t, m).server)
  {
    var r := ServeGet(t, m);
    LawfulSettle(s, t, m.writes);
    LawfulStep(s, Settle(t, m.writes), r.server, Got(r.outcome, r.version));
  }

  lemma LawfulCreate<T(!new)>(s: Server<T>, t: Server<T>, desired: T, m: Moment<T>)
    requires Lawful(s, t)
    ensures Lawful(s, ServeCreate(t, desired, m).server)
  {
    var r := ServeCreate(t, desired, m);
    LawfulSettle(s, t, m.writes);
    LawfulStep(s, Settle(t, m.writes), r.server, if r.outcome == Ok then Created(desired) else Refused(false));
  }

  lemma LawfulUpdate<T(!new)>(s: Server<T>, t: Server<T>, desired: T, version: nat, m: Moment<T>)
    requires Lawful(s, t)
    ensures Lawful(s, ServeUpdate(t, desired, version, m).server)
  {
    var r := ServeUpdate(t, desired, version, m);
    LawfulSettle(s, t, m.writes);
    LawfulStep(s, Settle(t, m.writes), r.server, if r.outcome == Ok then Updated(version, desired) else Refused(true));
  }

  /** Under any interference and with any faults, neither form ever creates over an
      existing object or updates a missing one, and the object ends up as the last write
      of anybody left it. */
  lemma NeverOverwrites<T(!new)>(s: Server<T>, desired: T, at: Schedule<T>)
    ensures Lawful(s, Once(s, desired, at).server) && Lawful(s, WithRetry(s, desired, at).server)
  {
    var got := ServeGet(s, at(0));
    LawfulGet(s, s, at(0));
    if got.outcome == Ok {
      LawfulUpdate(s, got.server, desired, got.version, at(1));
      var first := ServeUpdate(got.server, desired, got.version, at(1));
      LawfulGet(s, first.server, at(2));
      var second := ServeGet(first.server, at(2));
      LawfulUpdate(s, second.server, desired, second.version, at(3));
    } else if got.outcome == NotFound {
      LawfulCreate(s, got.server, desired, at(1));
    }
  }
}
