/**
 * What outlives a connection: sections 3.1.2.11.2 and 4.1 of MQTT Version 5.0.
 *
 * Between connections only QoS 1 PUBLISHes are in flight, and only if the expiry interval last agreed on is not zero.
 */
module Expiry {
  import opened Packets
  import opened OrderedMap
  import opened SessionState
  import opened Runs
  import opened Identifiers
  import opened Replay

  /** Nothing that belongs to a connection is left. */
  ghost predicate OnlyPublishes(s: State) {
    s.tracker == [] && s.inflight == NOTHING_INFLIGHT.(publishes := s.inflight.publishes, replay := s.inflight.replay)
  }

  ghost predicate Rested(w: World) {
    && w.s.link.expiry == w.agreed
    && (!w.s.link.connected ==> OnlyPublishes(w.s) && w.s.inflight.replay == ReplayOf(w.s.inflight.publishes))
    && (!w.s.link.connected && w.agreed == Duration(0) ==> w.s.inflight == NOTHING_INFLIGHT)
  }

  lemma StepKeepsRested(w: World, e: Event)
    requires Enabled(w, e) && Rested(w)
    ensures Rested(Step(w, e))
  {
    hide StepNext, CompletePublish;
    if Elsewhere(e) {
      hide Step;
      ElsewhereKeeps(w, e);
      return;
    }
    match e {
      case Next(due) =>
        NextKeepsLink(w.s, due);
        StepNextState(w, due);
        StepNextKeeps(w, due);
      case InPubAck(puback) => LinkKept(w.s, puback);
      case _ =>
    }
  }

  lemma StepNextKeeps(w: World, due: bool)
    ensures StepNext(w, due).agreed == w.agreed
  {
  }

  lemma {:induction false} AlwaysRested(ws: seq<World>, es: seq<Event>, i: nat)
    requires Run(ws, es) && i < |ws|
    ensures Rested(ws[i])
  {
    hide Step;
    if i > 0 {
      AlwaysRested(ws, es, i - 1);
      StepKeepsRested(ws[i - 1], es[i - 1]);
    }
  }

  /**
   * Whenever there is no connection, no subscription, ping, authentication or unacknowledged delivery is left; the
   * leases are those of the PUBLISHes in flight, all of which wait for replay; and with an expiry interval of zero
   * there is nothing at all.
   */
  lemma BetweenConnections(ws: seq<World>, es: seq<Event>, i: nat)
    requires Run(ws, es) && i < |ws| && !ws[i].s.link.connected
    requires forall k :: 0 <= k < i ==> KindMatches(ws[k].s, es[k])
    ensures var s := ws[i].s;
      && s.link.expiry == ws[i].agreed && OnlyPublishes(s)
      && s.pool.leased == Ids(s.inflight.publishes) && s.inflight.replay == ReplayOf(s.inflight.publishes)
      && (ws[i].agreed == Duration(0) ==> s.inflight == NOTHING_INFLIGHT && s.pool.leased == {})
  {
    AlwaysRested(ws, es, i);
    LeasesAlwaysExact(ws, es, i);
  }

  /** The interval that decides what happens when the connection ends: the application's DISCONNECT has the last word. */
  function Effective(w: World, e: Event): SessionExpiry {
    if e.Leave? then Or(e.disconnect.properties.sessionExpiry, w.agreed) else w.agreed
  }

  /**
   * The end of a connection, whichever way it comes: with an effective interval of zero every PUBLISH in flight is
   * cancelled and every identifier is free; otherwise the PUBLISHes and their identifiers are kept as they are.
   */
  lemma EndOfConnection(ws: seq<World>, es: seq<Event>, i: nat)
    requires Run(ws, es) && i < |es| && (es[i].Leave? || es[i].Lose?)
    requires forall k :: 0 <= k < i ==> KindMatches(ws[k].s, es[k])
    ensures var s, t := ws[i].s, ws[i + 1].s;
      && !t.link.connected && OnlyPublishes(t) && t.link.expiry == Effective(ws[i], es[i]) == ws[i + 1].agreed
      && if Effective(ws[i], es[i]) == Duration(0) then
        && t.inflight == NOTHING_INFLIGHT && t.pool.leased == {}
        && t.notices == s.notices + Cancellations(s.inflight.publishes)
      else
        && t.inflight.publishes == s.inflight.publishes && t.inflight.replay == ReplayOf(s.inflight.publishes)
        && t.pool.leased == Ids(s.inflight.publishes) && t.notices == s.notices
  {
    AlwaysRested(ws, es, i);
    LeasesAlwaysExact(ws, es, i);
    DisconnectKeepsLeases(ws[i].s);
  }

  /** From the end of a connection to the next accepted CONNACK, nothing in flight, leased or resolved changes. */
  lemma {:induction false} NothingChangesMeanwhile(ws: seq<World>, es: seq<Event>, i: nat, j: nat)
    requires Run(ws, es) && i <= j < |ws| && !ws[i].s.link.connected
    requires forall k :: i <= k < j ==> !Begins(es[k])
    ensures !ws[j].s.link.connected
    ensures ws[j].s.inflight == ws[i].s.inflight && ws[j].s.pool == ws[i].s.pool && ws[j].s.notices == ws[i].s.notices
    ensures ws[j].agreed == ws[i].agreed
    decreases j
  {
    hide Step;
    if j > i {
      NothingChangesMeanwhile(ws, es, i, j - 1);
      IdleStep(ws[j - 1], es[j - 1]);
    }
  }

  lemma IdleStep(w: World, e: Event)
    requires Enabled(w, e) && !w.s.link.connected && !Begins(e)
    ensures var v := Step(w, e);
      && !v.s.link.connected && v.s.inflight == w.s.inflight && v.s.pool == w.s.pool && v.s.notices == w.s.notices
      && v.agreed == w.agreed
  {
  }

  /** An accepted CONNACK either resumes exactly what was kept, or cancels it all and frees every identifier. */
  lemma BeginningOfConnection(ws: seq<World>, es: seq<Event>, i: nat)
    requires Run(ws, es) && i < |es| && Begins(es[i])
    requires forall k :: 0 <= k < i ==> KindMatches(ws[k].s, es[k])
    ensures var s, t := ws[i].s, ws[i + 1].s;
      && t.link.connected && t.link.epoch == s.link.epoch + 1
      && t.link.expiry == Or(es[i].connack.sessionExpiry, es[i].asked.expiry)
      && t.link.keepAlive == Or(es[i].connack.serverKeepAlive, es[i].asked.keepAlive)
      && if es[i].connack.reason.sessionPresent then
        t.inflight == s.inflight && t.pool == s.pool && t.notices == s.notices
      else
        && t.inflight == NOTHING_INFLIGHT && t.pool.leased == {}
        && t.notices == s.notices + Cancellations(s.inflight.publishes)
  {
    AlwaysRested(ws, es, i);
    LeasesAlwaysExact(ws, es, i);
  }
}
