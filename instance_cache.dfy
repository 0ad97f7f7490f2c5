/**
 * The process-wide INSTANCES map of each host provider: one provider per
 * plugin name, created by Map.computeIfAbsent. Here the map's values are
 * whatever `build()` would have constructed (for the host modules, the
 * configuration the provider was built with).
 */
module InstanceCache {

  /**
   * computeIfAbsent: the new map and the value returned. An existing entry is
   * returned and never replaced; otherwise the candidate is stored and returned.
   */
  function ComputeIfAbsent<K, V>(m: map<K, V>, k: K, candidate: V): (r: (map<K, V>, V))
    ensures k in r.0 && r.0[k] == r.1
    ensures r.0.Keys == m.Keys + {k}
    ensures forall j :: j in m ==> r.0[j] == m[j]
    ensures k !in m ==> r.1 == candidate
  {
    if k in m then (m, m[k]) else (m[k := candidate], candidate)
  }

  /** A series of `build()` calls, each with its plugin name and the value its builder would construct. */
  function BuildAll<K, V>(m: map<K, V>, requests: seq<(K, V)>): (r: (map<K, V>, seq<V>))
    ensures |r.1| == |requests|
    decreases |requests|
  {
    if requests == [] then (m, [])
    else
      var step := ComputeIfAbsent(m, requests[0].0, requests[0].1);
      var rest := BuildAll(step.0, requests[1..]);
      (rest.0, [step.1] + rest.1)
  }

  /** A plugin that already has a provider keeps it: every later build for it returns that provider. */
  lemma {:induction false} BuildKeepsExisting<K, V>(m: map<K, V>, requests: seq<(K, V)>)
    ensures forall j :: j in m ==> j in BuildAll(m, requests).0 && BuildAll(m, requests).0[j] == m[j]
    ensures forall i :: 0 <= i < |requests| && requests[i].0 in m ==> BuildAll(m, requests).1[i] == m[requests[i].0]
    decreases |requests|
  {
    if requests != [] {
      var step := ComputeIfAbsent(m, requests[0].0, requests[0].1);
      BuildKeepsExisting(step.0, requests[1..]);
      forall i | 0 <= i < |requests| && requests[i].0 in m
        ensures BuildAll(m, requests).1[i] == m[requests[i].0]
      {
        if i > 0 {
          assert requests[1..][i - 1] == requests[i];
        }
      }
    }
  }

  /**
   * Only the first builder for a new plugin name has any effect: every build
   * for that name, at that request and after it, returns what the first one
   * constructed, whatever later builders were configured with.
   */
  lemma {:induction false} BuildReturnsFirst<K, V>(m: map<K, V>, requests: seq<(K, V)>, first: nat, i: nat)
    requires first <= i < |requests|
    requires requests[i].0 == requests[first].0
    requires requests[first].0 !in m
    requires forall l :: 0 <= l < first ==> requests[l].0 != requests[first].0
    ensures BuildAll(m, requests).1[i] == requests[first].1
    decreases |requests|
  {
    var step := ComputeIfAbsent(m, requests[0].0, requests[0].1);
    var k := requests[first].0;
    if first == 0 {
      if i > 0 {
        BuildKeepsExisting(step.0, requests[1..]);
        assert requests[1..][i - 1] == requests[i];
      }
    } else {
      assert requests[0].0 != k;
      assert k !in step.0;
      assert requests[1..][first - 1] == requests[first];
      assert requests[1..][i - 1] == requests[i];
      BuildReturnsFirst(step.0, requests[1..], first - 1, i - 1);
    }
  }
}
