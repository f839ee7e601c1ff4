/** The fate of every command and the effect of every event, read off the events alone.

    Nothing here mentions the pending tables: a command is open while no result has come for its
    identifier, and the next event decides.
  */
module Fates {
  import opened Words
  import opened Swarm

  /** The network layer numbers queries, and requests, without repetition. */
  ghost predicate FreshIds(es: seq<Event>) {
    forall i, j :: 0 <= i < j < |es| && Alike(es[i], es[j]) ==> es[i].id != es[j].id
  }

  /** Two queries, or two requests. */
  predicate Alike(e: Event, e': Event) {
    e.Command? && e'.Command? && (e.kind == Verification <==> e'.kind == Verification)
  }

  /** Command c is a query with this identifier, and no handled result has come for it. */
  ghost predicate OpenQuery(es: seq<Event>, c: int, id: nat) {
    && 0 <= c < |es| && es[c].Command? && es[c].kind != Verification && es[c].id == id
    && forall t :: c < t < |es| && es[t].Progress? && es[t].result != Unhandled ==> es[t].id != id
  }

  /** Command c is a verification request with this identifier, and no reply has come for it. */
  ghost predicate OpenRequest(es: seq<Event>, c: int, id: nat) {
    && 0 <= c < |es| && es[c].Command? && es[c].kind == Verification && es[c].id == id
    && forall t :: c < t < |es| && es[t].Reply? ==> es[t].id != id
  }

  /** The result that belongs to each kind of query. */
  predicate OwnResult(result: ResultKind, kind: Kind) {
    (result, kind) in {(GetRecord, Get), (PutRecord, Put), (PutRecord, PutTo), (Providers, GetProviders),
                       (Closest, ClosestPeers), (Providing, StartProviding)}
  }

  // ----- the tables, read off the events -----

  lemma IdsAreSlots(es: seq<Event>)
    requires FreshIds(es)
    ensures FreshSlots(es)
  {
  }

  lemma QueriesHold(es: seq<Event>, id: nat)
    requires FreshIds(es) && Run(es).running
    ensures forall c :: OpenQuery(es, c, id) ==> Lookup(Run(es), Query(id)) == Some(Pending(es[c].kind, es[c].sender))
    ensures (forall c :: !OpenQuery(es, c, id)) ==> Lookup(Run(es), Query(id)).None?
  {
    hide Run, Lookup;
    IdsAreSlots(es);
    TablesHoldOpenCommands(es, Query(id));
    forall c ensures OpenQuery(es, c, id) <==> OpenSince(es, c, Query(id)) {
      QueryIsOpen(es, c, id);
    }
  }

  lemma QueryIsOpen(es: seq<Event>, c: int, id: nat)
    ensures OpenQuery(es, c, id) <==> OpenSince(es, c, Query(id))
  {
  }

  lemma RequestsHold(es: seq<Event>, id: nat)
    requires FreshIds(es) && Run(es).running
    ensures forall c :: OpenRequest(es, c, id) ==> Lookup(Run(es), Request(id)) == Some(Pending(Verification, es[c].sender))
    ensures (forall c :: !OpenRequest(es, c, id)) ==> Lookup(Run(es), Request(id)).None?
  {
    hide Run, Lookup;
    IdsAreSlots(es);
    TablesHoldOpenCommands(es, Request(id));
    forall c ensures OpenRequest(es, c, id) <==> OpenSince(es, c, Request(id)) {
      RequestIsOpen(es, c, id);
    }
  }

  lemma RequestIsOpen(es: seq<Event>, c: int, id: nat)
    ensures OpenRequest(es, c, id) <==> OpenSince(es, c, Request(id))
  {
  }

  lemma OneMore(es: seq<Event>, e: Event)
    ensures Run(es + [e]) == Step(Run(es), e)
  {
    hide Step;
    assert (es + [e])[..|es|] == es;
  }

  // ----- what the next event does -----

  /** From s to s' the loop runs on, with these deliveries and these senders dropped. */
  ghost predicate Goes(s: State, s': State, error: Option<Stop>, deliveries: seq<Delivery>, dropped: set<Sender>) {
    s'.running && error.None? && s'.log == s.log + deliveries && s'.dropped == s.dropped + dropped
  }

  ghost predicate Stops(s: State, s': State, error: Option<Stop>, why: Stop, dropped: set<Sender>) {
    !s'.running && error == Some(why) && s'.log == s.log && s'.dropped == s.dropped + dropped
  }

  /** The event is handled without an error. */
  ghost predicate Continues(es: seq<Event>, e: Event, deliveries: seq<Delivery>, dropped: set<Sender>) {
    Goes(Run(es), Run(es + [e]), ErrorOf(Run(es), e), deliveries, dropped)
  }

  /** The loop ends for good with this error: whatever follows, nothing more is delivered. */
  ghost predicate EndsWith(es: seq<Event>, e: Event, why: Stop, dropped: set<Sender>) {
    && Stops(Run(es), Run(es + [e]), ErrorOf(Run(es), e), why, dropped)
    && forall more :: Run(es + [e] + more) == Run(es + [e])
  }

  lemma EndsForGood(es: seq<Event>, e: Event)
    requires !Run(es + [e]).running
    ensures forall more :: Run(es + [e] + more) == Run(es + [e])
  {
    hide Run;
    forall more ensures Run(es + [e] + more) == Run(es + [e]) {
      StaysStopped(es + [e], more);
    }
  }

  lemma CommandStep(s: State, e: Event)
    requires s.running && e.Command? && Lookup(s, if e.kind == Verification then Request(e.id) else Query(e.id)).None?
    ensures
      if !e.waiting then Stops(s, Step(s, e), ErrorOf(s, e), CallerGone, {e.sender})
      else if e.refused && e.kind in {Put, StartProviding} then Stops(s, Step(s, e), ErrorOf(s, e), Refused, {e.sender})
      else Goes(s, Step(s, e), ErrorOf(s, e), [], {})
  {
  }

  /** A command is taken on and open, unless its caller is gone or the local store refuses it: only
      local puts and provider announcements can be refused.  Either ends the loop. */
  lemma CommandDecides(es: seq<Event>, e: Event)
    requires FreshIds(es + [e]) && Run(es).running && e.Command?
    ensures
      if !e.waiting then EndsWith(es, e, CallerGone, {e.sender})
      else if e.refused && e.kind in {Put, StartProviding} then EndsWith(es, e, Refused, {e.sender})
      else
        && Continues(es, e, [], {})
        && (if e.kind == Verification then OpenRequest(es + [e], |es|, e.id) else OpenQuery(es + [e], |es|, e.id))
  {
    hide Run, Step, ErrorOf, Lookup;
    NewId(es, e);
    if e.kind == Verification {
      RequestsHold(es, e.id);
    } else {
      QueriesHold(es, e.id);
    }
    CommandStep(Run(es), e);
    OneMore(es, e);
    if !Run(es + [e]).running {
      EndsForGood(es, e);
    }
  }

  lemma NewId(es: seq<Event>, e: Event)
    requires FreshIds(es + [e]) && e.Command?
    ensures FreshIds(es)
    ensures forall c :: !(if e.kind == Verification then OpenRequest(es, c, e.id) else OpenQuery(es, c, e.id))
  {
    var all := es + [e];
    forall i, j | 0 <= i < j < |es| && Alike(es[i], es[j]) ensures es[i].id != es[j].id {
      assert all[i] == es[i] && all[j] == es[j];
    }
    forall c | 0 <= c < |es| && Alike(es[c], e) ensures es[c].id != e.id {
      assert all[c] == es[c] && all[|es|] == e;
    }
  }

  lemma ResultStep(s: State, e: Event, p: Pending)
    requires s.running && e.Progress? && Lookup(s, Query(e.id)) == Some(p) && OwnResult(e.result, p.kind)
    ensures
      if e.status == Failed && e.result in {Providers, Closest, Providing} then
        Stops(s, Step(s, e), ErrorOf(s, e), QueryFailed, {p.sender})
      else if !e.waiting then Stops(s, Step(s, e), ErrorOf(s, e), SendFailed, {p.sender})
      else
        var ok := e.status == Found || (e.status == OtherOk && e.result in {PutRecord, Closest, Providing});
        Goes(s, Step(s, e), ErrorOf(s, e), [Delivery(p.sender, p.kind, Query(e.id), ok, e.body)], {})
  {
  }

  /** The first result for an open query of its own kind.  Puts and gets are told of failures; a
      failure of any other query, like a caller that is gone, ends the loop. */
  lemma FirstResultDecides(es: seq<Event>, c: int, e: Event)
    requires FreshIds(es) && Run(es).running
    requires e.Progress? && OpenQuery(es, c, e.id) && OwnResult(e.result, es[c].kind)
    ensures var x := es[c].sender;
      if e.status == Failed && e.result in {Providers, Closest, Providing} then EndsWith(es, e, QueryFailed, {x})
      else if !e.waiting then EndsWith(es, e, SendFailed, {x})
      else
        var ok := e.status == Found || (e.status == OtherOk && e.result in {PutRecord, Closest, Providing});
        Continues(es, e, [Delivery(x, es[c].kind, Query(e.id), ok, e.body)], {})
  {
    hide Run, Step, ErrorOf, Lookup, OwnResult;
    QueriesHold(es, e.id);
    ResultStep(Run(es), e, Pending(es[c].kind, es[c].sender));
    OneMore(es, e);
    if !Run(es + [e]).running {
      EndsForGood(es, e);
    }
  }

  lemma StrayStep(s: State, e: Event)
    requires s.running && e.Progress? && e.result != Unhandled
    requires var p := Lookup(s, Query(e.id)); p.Some? ==> !OwnResult(e.result, p.value.kind)
    ensures var p := Lookup(s, Query(e.id));
      var dropped := if p.Some? then {p.value.sender} else {};
      if e.result == GetRecord then Goes(s, Step(s, e), ErrorOf(s, e), [], dropped)
      else Stops(s, Step(s, e), ErrorOf(s, e), InvalidChannel, dropped)
  {
  }

  /** A result for which no query of its kind is open: a late get-record result is ignored, any other
      ends the loop.  A query of another kind that was open is dropped. */
  lemma StrayResult(es: seq<Event>, e: Event)
    requires FreshIds(es) && Run(es).running && e.Progress? && e.result != Unhandled
    requires forall c :: OpenQuery(es, c, e.id) ==> !OwnResult(e.result, es[c].kind)
    ensures forall c :: OpenQuery(es, c, e.id) ==>
      if e.result == GetRecord then Continues(es, e, [], {es[c].sender})
      else EndsWith(es, e, InvalidChannel, {es[c].sender})
    ensures (forall c :: !OpenQuery(es, c, e.id)) ==>
      if e.result == GetRecord then Continues(es, e, [], {}) else EndsWith(es, e, InvalidChannel, {})
  {
    hide Run, Step, ErrorOf, Lookup, OwnResult;
    QueriesHold(es, e.id);
    if exists c :: OpenQuery(es, c, e.id) {
      var c :| OpenQuery(es, c, e.id);
      assert Lookup(Run(es), Query(e.id)) == Some(Pending(es[c].kind, es[c].sender));
    }
    StrayStep(Run(es), e);
    OneMore(es, e);
    if !Run(es + [e]).running {
      EndsForGood(es, e);
    }
  }

  /** The first reply to an open verification request, whether a response or a failure. */
  lemma FirstReplyDecides(es: seq<Event>, c: int, e: Event)
    requires FreshIds(es) && Run(es).running && e.Reply? && OpenRequest(es, c, e.id)
    ensures var x := es[c].sender;
      if e.waiting then Continues(es, e, [Delivery(x, Verification, Request(e.id), e.ok, e.body)], {})
      else EndsWith(es, e, SendFailed, {x})
  {
    RequestsHold(es, e.id);
    OneMore(es, e);
    hide Run;
    if !Run(es + [e]).running {
      EndsForGood(es, e);
    }
  }

  lemma StrayReply(es: seq<Event>, e: Event)
    requires FreshIds(es) && Run(es).running && e.Reply? && forall c :: !OpenRequest(es, c, e.id)
    ensures EndsWith(es, e, InvalidChannel, {})
  {
    RequestsHold(es, e.id);
    OneMore(es, e);
    hide Run;
    EndsForGood(es, e);
  }

  /** The other events: a controller that is gone and a response that cannot be sent end the loop;
      the rest change nothing. */
  lemma OtherEventsDecide(es: seq<Event>, e: Event)
    requires Run(es).running
    ensures e == ControllerGone ==> EndsWith(es, e, MissingInstruction, {})
    ensures e == Inbound(false) ==> EndsWith(es, e, ResponseFailed, {})
    ensures e in {Inbound(true), Ignored} ==> Continues(es, e, [], {}) && Run(es + [e]) == Run(es)
    ensures e.Progress? && e.result == Unhandled ==> Continues(es, e, [], {}) && Run(es + [e]) == Run(es)
  {
    OneMore(es, e);
    hide Run;
    if !Run(es + [e]).running {
      EndsForGood(es, e);
    }
  }
}
