/** Multicasts to the other proxies along planned paths (CtProtocolState, BftProtocolState, CrusaderAgreementState). */
module Multicasts {
  import opened RoundEngine
  import opened Routing
  import opened Crusader
  import PathFinder

  /** The proxies other than this meter: remove_copy into a vector that is one shorter than the list. */
  function Others(proxies: seq<nat>, id: nat): seq<nat> {
    if proxies == [] then []
    else (if proxies[0] == id then [] else [proxies[0]]) + Others(proxies[1..], id)
  }

  /** Exactly one entry is this meter's, as pick_proxies and routing by proxy make it; otherwise the copy overruns. */
  predicate ProxyOnce(proxies: seq<nat>, id: nat) {
    |Others(proxies, id)| == |proxies| - 1
  }

  function PathMessages<V>(query: int, paths: seq<seq<nat>>, v: V): seq<Message<V>>
    requires forall p :: p in paths ==> |p| >= 1
  {
    seq(|paths|, k requires 0 <= k < |paths| => PathMessage(query, paths[k], v))
  }

  /** A meter multicasting in a query, and the first round the messages can be sent in. */
  datatype From = From(id: nat, n: nat, query: int, start: nat)

  /** One message for every other proxy, along the paths find_paths plans from `start` on. */
  ghost predicate Multicast<V>(ms: seq<Message<V>>, from: From, others: seq<nat>, v: V, paths: seq<seq<nat>>) {
    && from.n >= 1 && |paths| == |others| && PathFinder.PlannedUpTo(from.id, others, from.n, from.start, paths, |others|)
    && (forall p :: p in paths ==> |p| >= 1)
    && ms == PathMessages(from.query, paths, v)
  }

  /** A planned path has at least one hop. */
  lemma PlannedHops(id: nat, others: seq<nat>, n: nat, start: nat, paths: seq<seq<nat>>)
    requires n >= 1 && |paths| == |others| && PathFinder.PlannedUpTo(id, others, n, start, paths, |others|)
    ensures forall p :: p in paths ==> |p| >= 1
  {
    forall p | p in paths ensures |p| >= 1 {
      var i :| 0 <= i < |paths| && paths[i] == p;
      assert PathFinder.Planned(id, others, n, start, paths, i);
      var rounds :| PathFinder.Admissible([id] + paths[i], rounds, PathFinder.NthSearch(id, others, n, start, paths, i));
      assert |rounds| >= 1;
    }
  }

  /** find_paths may throw; the exception is not caught. */
  method MulticastValue<V>(from: From, others: seq<nat>, v: V)
    returns (ok: bool, ms: seq<Message<V>>, ghost paths: seq<seq<nat>>)
    requires from.id < from.n
    ensures ok ==> Multicast(ms, from, others, v, paths)
    ensures !ok ==> exists some :: PathFinder.Fails(from.id, others, from.n, from.start, some)
  {
    ms, paths := [], [];
    var found := PathFinder.FindPaths(from.id, others, from.n, from.start);
    if found.Err? {
      return false, ms, paths;
    }
    PlannedHops(from.id, others, from.n, from.start, found.value);
    paths := found.value;
    var k := 0;
    while k < |found.value|
      invariant 0 <= k <= |found.value| && |ms| == k
      invariant forall j :: 0 <= j < k ==> ms[j] == PathMessage(from.query, found.value[j], v)
    {
      assert found.value[k] in found.value;
      ms := ms + [PathMessage(from.query, found.value[k], v)];
      k := k + 1;
    }
    ok := true;
  }

  /** encrypted_multicast_to_proxies: one onion for every proxy, along the paths planned from round `from.start` on. */
  method EncryptedMulticastToProxies<V>(from: From, proxies: seq<nat>, v: V)
    returns (ok: bool, ms: seq<Message<V>>, ghost paths: seq<seq<nat>>)
    requires from.id < from.n
    ensures ok ==> |ms| == |paths| == |proxies|
                   && PathFinder.PlannedUpTo(from.id, proxies, from.n, from.start, paths, |proxies|)
    ensures ok ==> forall k :: 0 <= k < |ms| ==> |paths[k]| >= 1 && ms[k] == Onion(from.query, paths[k], v)
    ensures !ok ==> exists some :: PathFinder.Fails(from.id, proxies, from.n, from.start, some)
  {
    ms, paths := [], [];
    var found := PathFinder.FindPaths(from.id, proxies, from.n, from.start);
    if found.Err? {
      return false, ms, paths;
    }
    PlannedHops(from.id, proxies, from.n, from.start, found.value);
    paths := found.value;
    while |ms| < |found.value|
      invariant |ms| <= |found.value|
      invariant forall j :: 0 <= j < |ms| ==> |found.value[j]| >= 1 && ms[j] == Onion(from.query, found.value[j], v)
    {
      assert found.value[|ms|] in found.value;
      var onion := BuildOnion(from.query, found.value[|ms|], v);
      ms := ms + [onion];
    }
    ok := true;
  }

  /** What was sent for one value. */
  datatype Sent<V> = Sent(value: Contribution, body: V, paths: seq<seq<nat>>, messages: seq<Message<V>>)

  function AllMessages<V>(log: seq<Sent<V>>): seq<Message<V>> {
    if log == [] then [] else AllMessages(log[..|log| - 1]) + log[|log| - 1].messages
  }

  /** Every value was multicast once, to the proxies besides this meter, starting with the next round. */
  ghost predicate MulticastsAll<V>(log: seq<Sent<V>>, values: set<Contribution>, from: From, body: Contribution -> V) {
    && (forall v :: v in values <==> exists k :: 0 <= k < |log| && log[k].value == v)
    && (forall j, k :: 0 <= j < k < |log| ==> log[j].value != log[k].value)
    && (forall k :: 0 <= k < |log| ==>
          && log[k].body == body(log[k].value)
          && Multicast(log[k].messages, from, Others(log[k].value.tuple.proxies, from.id), log[k].body, log[k].paths))
  }

  lemma MulticastOne<V>(log: seq<Sent<V>>, values: set<Contribution>, from: From, body: Contribution -> V, s: Sent<V>)
    requires MulticastsAll(log, values, from, body) && s.value !in values && s.body == body(s.value)
    requires Multicast(s.messages, from, Others(s.value.tuple.proxies, from.id), s.body, s.paths)
    ensures MulticastsAll(log + [s], values + {s.value}, from, body)
    ensures AllMessages(log + [s]) == AllMessages(log) + s.messages
  {
    hide Multicast, Others;
    var all := log + [s];
    assert all[..|log|] == log;
    forall v | v in values + {s.value} ensures exists k :: 0 <= k < |all| && all[k].value == v {
      if v == s.value {
        assert all[|log|].value == v;
      } else {
        var k :| 0 <= k < |log| && log[k].value == v;
        assert all[k].value == v;
      }
    }
    forall k | 0 <= k < |all| ensures all[k].value in values + {s.value} {
      assert k < |log| ==> all[k] == log[k];
    }
  }

  /** find_paths has no path to some proxy of v. */
  ghost predicate NoPaths(from: From, v: Contribution)
    requires from.id < from.n
  {
    exists paths :: PathFinder.Fails(from.id, Others(v.tuple.proxies, from.id), from.n, from.start, paths)
  }

  /** The loop over proxy_values: an unordered set, each value found once. */
  method MulticastValues<V>(values: set<Contribution>, from: From, body: Contribution -> V)
    returns (ok: bool, ms: seq<Message<V>>, ghost log: seq<Sent<V>>)
    requires from.id < from.n
    ensures ok ==> MulticastsAll(log, values, from, body) && ms == AllMessages(log)
    ensures !ok ==> exists v :: v in values && NoPaths(from, v)
  {
    hide Multicast, Others, MulticastsAll, AllMessages, PathFinder.Fails;
    ok, ms, log := true, [], [];
    var todo := values;
    NothingSent(from, body);
    assert values - todo == {};
    while todo != {}
      invariant todo <= values
      invariant MulticastsAll(log, values - todo, from, body) && ms == AllMessages(log)
      decreases todo
    {
      var v :| v in todo;
      var sent, some, paths := MulticastValue(from, Others(v.tuple.proxies, from.id), body(v));
      if !sent {
        return false, ms, log;
      }
      MulticastOne(log, values - todo, from, body, Sent(v, body(v), paths, some));
      assert values - (todo - {v}) == values - todo + {v};
      log := log + [Sent(v, body(v), paths, some)];
      ms := ms + some;
      todo := todo - {v};
    }
    assert values - {} == values;
  }

  lemma NothingSent<V>(from: From, body: Contribution -> V)
    ensures MulticastsAll([], {}, from, body) && AllMessages<V>([]) == []
  {
  }

  /** Every value reaches the outgoing messages for each of its proxies besides this meter. */
  lemma MulticastsReach<V(!new)>(log: seq<Sent<V>>, values: set<Contribution>, from: From, body: Contribution -> V,
                                 v: Contribution, z: nat)
    requires MulticastsAll(log, values, from, body) && v in values && z in v.tuple.proxies && z != from.id
    ensures SendsTo(AllMessages(log), from.query, body(v), z)
  {
    hide PathFinder.PlannedUpTo;
    var k :| 0 <= k < |log| && log[k].value == v;
    var others, paths := Others(v.tuple.proxies, from.id), log[k].paths;
    OthersMember(v.tuple.proxies, from.id, z);
    var i :| 0 <= i < |others| && others[i] == z;
    assert paths[i] in paths;
    PlannedEnd(from.id, others, from.n, from.start, paths, i);
    assert log[k].messages[i] == PathMessage(from.query, paths[i], body(v));
    LogMessage(log, k, i);
  }

  lemma PlannedEnd(id: nat, others: seq<nat>, n: nat, start: nat, paths: seq<seq<nat>>, i: nat)
    requires n >= 1 && i < |paths| == |others| && PathFinder.PlannedUpTo(id, others, n, start, paths, |others|)
    requires |paths[i]| >= 1
    ensures paths[i][|paths[i]| - 1] == others[i]
  {
    hide PathFinder.Travels;
    assert PathFinder.Planned(id, others, n, start, paths, i);
    PlannedEndsBy(id, others, n, start, paths, i);
  }

  lemma {:induction false} OthersMember(proxies: seq<nat>, id: nat, z: nat)
    ensures z in Others(proxies, id) <==> z in proxies && z != id
  {
    if proxies != [] {
      OthersMember(proxies[1..], id, z);
      assert proxies == [proxies[0]] + proxies[1..];
    }
  }

  /** Nothing else is sent: each message takes some value to one of its proxies other than this meter. */
  lemma MulticastsOnly<V(!new)>(log: seq<Sent<V>>, values: set<Contribution>, from: From, body: Contribution -> V,
                                m: Message<V>) returns (v: Contribution, path: seq<nat>)
    requires MulticastsAll(log, values, from, body) && m in AllMessages(log)
    ensures v in values && |path| >= 1 && m == PathMessage(from.query, path, body(v))
    ensures path[|path| - 1] in v.tuple.proxies && path[|path| - 1] != from.id
    ensures forall j, k :: 0 <= j < k < |path| ==> path[j] != path[k]
  {
    hide PathFinder.PlannedUpTo;
    var k, i := LogEntry(log, m);
    v := log[k].value;
    var others, paths := Others(v.tuple.proxies, from.id), log[k].paths;
    path := paths[i];
    assert path in paths;
    PlannedSimple(from, v, paths, i);
  }

  lemma PlannedSimple(from: From, v: Contribution, paths: seq<seq<nat>>, i: nat)
    requires var others := Others(v.tuple.proxies, from.id);
             && from.n >= 1 && i < |paths| == |others|
             && PathFinder.PlannedUpTo(from.id, others, from.n, from.start, paths, |others|)
    ensures |paths[i]| >= 1 && forall j, k :: 0 <= j < k < |paths[i]| ==> paths[i][j] != paths[i][k]
    ensures paths[i][|paths[i]| - 1] in v.tuple.proxies && paths[i][|paths[i]| - 1] != from.id
  {
    var others := Others(v.tuple.proxies, from.id);
    OthersMember(v.tuple.proxies, from.id, others[i]);
    OthersMember(v.tuple.proxies, from.id, from.id);
    assert PathFinder.Planned(from.id, others, from.n, from.start, paths, i);
    hide PathFinder.Planned, Others;
    PathFinder.PathShape(from.id, others, from.n, from.start, paths, i);
  }

  lemma {:induction false} LogEntry<V>(log: seq<Sent<V>>, m: Message<V>) returns (k: nat, i: nat)
    requires m in AllMessages(log)
    ensures k < |log| && i < |log[k].messages| && log[k].messages[i] == m
    decreases |log|
  {
    var last := |log| - 1;
    if m in AllMessages(log[..last]) {
      k, i := LogEntry(log[..last], m);
    } else {
      k := last;
      i :| 0 <= i < |log[last].messages| && log[last].messages[i] == m;
    }
  }

  lemma {:induction false} LogMessage<V>(log: seq<Sent<V>>, k: nat, i: nat)
    requires k < |log| && i < |log[k].messages|
    ensures log[k].messages[i] in AllMessages(log)
    decreases |log|
  {
    if k < |log| - 1 { LogMessage(log[..|log| - 1], k, i); }
  }

  /** ms holds a message that takes v to z. */
  ghost predicate SendsTo<V>(ms: seq<Message<V>>, query: int, v: V, z: nat) {
    exists path: seq<nat> :: |path| >= 1 && path[|path| - 1] == z && PathMessage(query, path, v) in ms
  }
}
