/** CtProtocolState and BftProtocolState: what they do with overlay messages and at the end of a round. */
module Protocols {
  import opened Phases
  import opened RoundEngine
  import opened Routing
  import opened Multicasts
  import opened Crusader
  import opened CrusaderAgreement
  import opened Shuffle
  import Agreement = CrusaderRun

  // ---- the crash-tolerant protocol ----

  class CtProtocolState {
    const c: Config
    const id: nat
    const n: nat
    const query: int
    var ps: PhaseState
    var proxyValues: set<Contribution>
    var waiting: seq<Message<Contribution>>
    var outgoing: seq<Message<Contribution>>

    constructor (c: Config, id: nat, n: nat, query: int)
      requires c.variant == CT && id < n
      ensures this.c == c && this.id == id && this.n == n && this.query == query
      ensures ps == INITIAL && proxyValues == {} && waiting == [] && outgoing == []
    {
      this.c, this.id, this.n, this.query := c, id, n, query;
      ps, proxyValues, waiting, outgoing := INITIAL, {}, [], [];
    }

    /** handle_overlay_message_impl up to the end of the round. */
    method HandleOverlayMessageImpl(m: Message<Contribution>)
      modifies this`proxyValues, this`waiting
      ensures var (p, more) := ForwardingReceive(CtDeliver(query))(old(proxyValues), id, ps.phase, m);
              proxyValues == p && waiting == old(waiting) + more
    {
      match m.body {
        case Null =>
        case Layer(inner) => waiting := waiting + [inner];
        case Value(v) =>
          if m.dest == id {
            if ps.phase == First {
              if v.tuple.query == query { proxyValues := proxyValues + {v}; }
            } else if ps.phase == Second {
              if v.tuple.query == query { proxyValues := proxyValues + {v}; }
            }
          }
      }
    }

    /** At the end of the shuffle phase every value is echoed to its other proxies; `false` stands for an exception. */
    method EndOverlayRoundImpl(round: int) returns (ok: bool, ghost log: seq<Sent<Contribution>>)
      requires c.variant == CT && id < n && round >= -1
      requires forall v :: v in proxyValues ==> ProxyOnce(v.tuple.proxies, id)
      modifies this`ps, this`outgoing
      ensures ok ==> ps == EndRoundPhase(c, old(ps), round) && outgoing == old(outgoing) + AllMessages(log)
      ensures ok ==> if old(ps).phase == First && ps.phase == Second
                     then MulticastsAll(log, proxyValues, From(id, n, query, round + 1), v => v) else log == []
    {
      hide MulticastsAll, AllMessages, ProxyOnce;
      NothingSent(From(id, n, query, 0), (v: Contribution) => v);
      ok, log := true, [];
      if ps.phase == First && round >= c.f + 2 * c.l + 1 {
        var sent, ms, sends := MulticastValues(proxyValues, From(id, n, query, round + 1), v => v);
        if !sent {
          return false, [];
        }
        log := sends;
        outgoing := outgoing + ms;
        ps := PhaseState(Second, round, false);
      } else if ps.phase == Second && round >= ps.mark + c.f + 2 * c.l + 1 {
        ps := ps.(phase := Aggregate);
      }
    }
  }

  // ---- the Byzantine-tolerant protocol ----

  class BftProtocolState {
    const c: Config
    const id: nat
    const n: nat
    const query: int
    const agreement: CrusaderAgreementState
    var ps: PhaseState
    var proxyValues: set<Contribution>
    var accepted: set<Contribution>
    var waiting: seq<Message<Agreement.Body>>
    var outgoing: seq<Message<Agreement.Body>>

    constructor (c: Config, id: nat, n: nat, query: int)
      requires c.variant == BFT && id < n
      ensures this.c == c && this.id == id && this.n == n && this.query == query
      ensures ps == INITIAL && proxyValues == {} && accepted == {} && waiting == [] && outgoing == []
      ensures fresh(agreement) && Valid() && agreement.signedProxyValues == map[]
    {
      this.c, this.id, this.n, this.query := c, id, n, query;
      ps, proxyValues, accepted, waiting, outgoing := INITIAL, {}, {}, [], [];
      agreement := new CrusaderAgreementState(id, c.l, n, query);
    }

    ghost predicate Valid()
      reads this, agreement
    {
      && c.variant == BFT && id < n && agreement.nodeId == id && agreement.log2n == c.l
      && agreement.numNodes == n && agreement.queryNum == query
      && agreement.phase1Finished == ps.phase1Done && (ps.phase == First ==> !ps.phase1Done)
    }

    /** What the engine's handlers see of the object. */
    ghost function View(): Agreement.Proxy
      reads this, agreement
    {
      Agreement.Proxy(AgreementPhase(ps.phase), proxyValues, agreement.signedProxyValues, agreement.phase1Finished,
                      accepted)
    }

    ghost function Setting(): Agreement.Setting
      reads this
    {
      Agreement.Setting(query, c.l, {})
    }

    /** handle_overlay_message_impl up to the end of the round. */
    method HandleOverlayMessageImpl(m: Message<Agreement.Body>)
      requires Valid()
      modifies this`proxyValues, this`waiting, agreement`signedProxyValues
      ensures Valid()
      ensures var (p, more) := ForwardingReceive(BftDeliver(Setting()))(old(View()), id, ps.phase, m);
              View() == p && waiting == old(waiting) + more
    {
      match m.body {
        case Null =>
        case Layer(inner) => waiting := waiting + [inner];
        case Value(b) =>
          if m.dest == id {
            if ps.phase == First {
              match b {
                case Contributed(v) =>
                  if v.tuple.query == query && OwnerVerifies(v) { proxyValues := proxyValues + {v}; }
                case Signed(_) =>
                case Accept(_) =>
              }
              assert View() == BftDeliver(Setting())(old(View()), ps.phase, b);
            } else if ps.phase == Second {
              match b {
                case Signed(sv) => agreement.HandlePhase1Message(sv);
                case Accept(a) => agreement.HandlePhase2Message(a);
                case Contributed(_) =>
              }
              assert View() == BftDeliver(Setting())(old(View()), ps.phase, b);
            }
          }
      }
    }

    /**
     * The end of shuffle signs and multicasts every value, the end of phase 1 multicasts a package for every value with
     * enough signatures, the end of phase 2 accepts; `false` stands for an exception.
     */
    method EndOverlayRoundImpl(round: int) returns (ok: bool, ghost log: seq<Sent<Agreement.Body>>)
      requires Valid() && round >= -1
      requires forall v :: v in proxyValues ==> ProxyOnce(v.tuple.proxies, id)
      requires forall v :: v in AcceptedValues(agreement.signedProxyValues, c.l) ==> ProxyOnce(v.tuple.proxies, id)
      modifies this`ps, this`outgoing, this`accepted, agreement`phase1Finished
      ensures ok ==> Valid() && ps == EndRoundPhase(c, old(ps), round) && outgoing == old(outgoing) + AllMessages(log)
      ensures ok ==>
                if old(ps).phase == First && ps.phase == Second then
                  MulticastsAll(log, proxyValues, From(id, n, query, round + 1), SignAlone(id))
                else if ps.phase1Done && !old(ps).phase1Done then
                  MulticastsAll(log, AcceptedValues(agreement.signedProxyValues, c.l), From(id, n, query, round + 1),
                                AcceptBody(agreement.signedProxyValues, id))
                else log == []
      ensures ok ==> accepted == if ps.phase == Aggregate && old(ps).phase != Aggregate
                                 then AcceptedValues(agreement.signedProxyValues, c.l) else old(accepted)
    {
      hide MulticastsAll, AllMessages, ProxyOnce, AcceptBody, AcceptedValues;
      NothingSent(From(id, n, query, 0), SignAlone(id));
      ok, log := true, [];
      if ps.phase == First && round >= 2 * c.f + c.l * c.l + 1 {
        var sent, ms, sends := MulticastValues(proxyValues, From(id, n, query, round + 1), SignAlone(id));
        if !sent {
          return false, [];
        }
        log := sends;
        outgoing := outgoing + ms;
        ps := PhaseState(Second, round, false);
      } else if ps.phase == Second && round >= ps.mark + 4 * c.f + 2 * (c.l * c.l) + 2 && agreement.phase1Finished {
        accepted := agreement.FinishPhase2();
        ps := ps.(phase := Aggregate);
      } else if ps.phase == Second && round >= ps.mark + 2 * c.f + c.l * c.l + 1 && !agreement.phase1Finished {
        var sent, ms, sends := agreement.FinishPhase1(round);
        if !sent {
          return false, [];
        }
        log := sends;
        outgoing := outgoing + ms;
        ps := ps.(phase1Done := true);
      }
    }
  }
}
