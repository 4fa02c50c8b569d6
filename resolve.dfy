/**
 * What `getSecret` and `getConfigMap` do to the resolved map. Both take a
 * batch (resource name to requested keys), fetch each named resource once,
 * and write every requested key, under the KEY's name, with that
 * resource's value for it. The resources are visited in map order, which
 * Go leaves unspecified, so the outcome is stated as a relation: when two
 * resources of one batch supply the same key, either value may survive.
 */
module Resolve {
  import opened Kube
  import opened Classify

  /** Every key some resource of the batch is asked for. */
  function Requested(b: Batch): set<string>
  {
    set r, k | r in b && k in b[r] :: k
  }

  /** A batch naming one resource requests that resource's keys. */
  lemma RequestedOne(r: string, keys: seq<string>)
    ensures forall k :: k in Requested(map[r := keys]) <==> k in keys
  {
    var b := map[r := keys];
    forall k | k in keys ensures k in Requested(b) {
      assert r in b && k in b[r];
    }
  }

  /** The part of the batch naming the resources in `names`. */
  function Restrict(b: Batch, names: set<string>): Batch
  {
    map r | r in b && r in names :: b[r]
  }

  /** The entries one fetched resource with data `d` contributes for `keys`. */
  function Supplied(d: Data, keys: seq<string>): map<string, string>
  {
    map k | k in keys :: DataAt(d, k)
  }

  /** Some resource of the batch that `store` holds is asked for `k` and has `v` for it. */
  ghost predicate Supplies(b: Batch, store: map<string, Data>, k: string, v: string)
  {
    exists r :: r in b && r in store && k in b[r] && v == DataAt(store[r], k)
  }

  /**
   * `after` is a possible result of resolving batch `b` against `store`
   * into `before`: the requested keys are added, each with a value some
   * resource asking for it supplies, and every other entry is unchanged.
   */
  ghost predicate ResolvedBy(before: map<string, string>, b: Batch, store: map<string, Data>, after: map<string, string>)
  {
    && (forall k :: k in after <==> k in before || k in Requested(b))
    && (forall k :: k in before && k !in Requested(b) ==> after[k] == before[k])
    && (forall k :: k in Requested(b) ==> Supplies(b, store, k, after[k]))
  }

  /** Every resource that asks for `k` has the same value for it. */
  ghost predicate Unambiguous(b: Batch, store: map<string, Data>, k: string)
  {
    forall r1, r2 :: r1 in b && r2 in b && r1 in store && r2 in store && k in b[r1] && k in b[r2]
      ==> DataAt(store[r1], k) == DataAt(store[r2], k)
  }

  /**
   * What one resolver call may leave behind. It fails exactly when some
   * resource of the batch cannot be fetched, and then names such a
   * resource; on success the batch is resolved; on failure the map is the
   * resolution of some subset of the batch. Which subset is the order of
   * the fetches, which the relation leaves open.
   */
  ghost predicate BatchOutcome(before: map<string, string>, b: Batch, store: map<string, Data>, kind: Kind,
                               err: Option<Error>, after: map<string, string>)
  {
    && (err.None? <==> b.Keys <= store.Keys)
    && (err.None? ==> ResolvedBy(before, b, store, after))
    && (err.Some? ==>
          && err.value.LookupFailed? && err.value.kind == kind
          && err.value.name in b && err.value.name !in store
          && exists done :: done <= b.Keys && ResolvedBy(before, Restrict(b, done), store, after))
  }

  /** Writing one more key of a fetched resource into `m`. */
  lemma SuppliedSnoc(m: map<string, string>, d: Data, keys: seq<string>, j: nat)
    requires j < |keys|
    ensures m + Supplied(d, keys[..j + 1]) == (m + Supplied(d, keys[..j]))[keys[j] := DataAt(d, keys[j])]
  {
  }

  /** Nothing resolved yet: the map is as it was. */
  lemma ResolvedByNothing(before: map<string, string>, b: Batch, store: map<string, Data>)
    ensures ResolvedBy(before, Restrict(b, {}), store, before)
  {
  }

  /**
   * One more resource `r` of the batch: fetching it and writing its keys
   * into a map that resolves the resources `done` gives a map that
   * resolves `done + {r}`.
   */
  lemma ResolveOneMore(before: map<string, string>, b: Batch, store: map<string, Data>,
                       done: set<string>, r: string, mid: map<string, string>)
    requires ResolvedBy(before, Restrict(b, done), store, mid)
    requires r in b && r in store
    ensures ResolvedBy(before, Restrict(b, done + {r}), store, mid + Supplied(store[r], b[r]))
  {
    var beforeDone := Restrict(b, done);
    var withR := Restrict(b, done + {r});
    var after := mid + Supplied(store[r], b[r]);
    assert Requested(withR) == Requested(beforeDone) + set k | k in b[r] by {
      forall k | k in Requested(withR) ensures k in Requested(beforeDone) || k in b[r] {
        var r' :| r' in withR && k in withR[r'];
        if r' != r { assert r' in beforeDone; }
      }
      forall k | k in Requested(beforeDone) ensures k in Requested(withR) {
        var r' :| r' in beforeDone && k in beforeDone[r'];
        assert r' in withR;
      }
      forall k | k in b[r] ensures k in Requested(withR) {
        assert r in withR;
      }
    }
    forall k | k in Requested(withR)
      ensures Supplies(withR, store, k, after[k])
    {
      if k in b[r] {
        assert r in withR;
      } else {
        assert Supplies(beforeDone, store, k, mid[k]);
        var r' :| r' in beforeDone && r' in store && k in beforeDone[r'] && mid[k] == DataAt(store[r'], k);
        assert r' in withR;
      }
    }
  }

  /** When the resources `done` are all of the batch, the batch is resolved. */
  lemma RestrictAll(b: Batch, done: set<string>)
    requires done == b.Keys
    ensures Restrict(b, done) == b
  {
  }

  /** A key with one agreed value gets exactly that value. */
  lemma ResolvedValue(before: map<string, string>, b: Batch, store: map<string, Data>,
                      after: map<string, string>, r: string, k: string)
    requires ResolvedBy(before, b, store, after)
    requires r in b && r in store && k in b[r]
    requires Unambiguous(b, store, k)
    ensures k in after && after[k] == DataAt(store[r], k)
  {
  }

  /** When no two resources disagree on a key, the map order does not matter: the result is unique. */
  lemma ResolvedUnique(before: map<string, string>, b: Batch, store: map<string, Data>,
                       a1: map<string, string>, a2: map<string, string>)
    requires ResolvedBy(before, b, store, a1) && ResolvedBy(before, b, store, a2)
    requires forall k :: k in Requested(b) ==> Unambiguous(b, store, k)
    ensures a1 == a2
  {
    forall k | k in Requested(b)
      ensures a1[k] == a2[k]
    {
      var r1 :| r1 in b && r1 in store && k in b[r1] && a1[k] == DataAt(store[r1], k);
      var r2 :| r2 in b && r2 in store && k in b[r2] && a2[k] == DataAt(store[r2], k);
    }
  }

  /**
   * Secrets first, then config maps: a key either batch requests ends up
   * with a config-map value when a config map asks for it, otherwise with a
   * secret value; both overwrite what the classifier stored; every other
   * entry is unchanged.
   */
  lemma ConfigMapsResolvedLast(e0: map<string, string>, sb: Batch, secrets: map<string, Data>,
                               e1: map<string, string>, cb: Batch, configMaps: map<string, Data>,
                               e2: map<string, string>)
    requires ResolvedBy(e0, sb, secrets, e1) && ResolvedBy(e1, cb, configMaps, e2)
    ensures forall k :: k in e2 <==> k in e0 || k in Requested(sb) || k in Requested(cb)
    ensures forall k :: k in Requested(cb) ==> Supplies(cb, configMaps, k, e2[k])
    ensures forall k :: k in Requested(sb) && k !in Requested(cb) ==> Supplies(sb, secrets, k, e2[k])
    ensures forall k :: k in e0 && k !in Requested(sb) && k !in Requested(cb) ==> e2[k] == e0[k]
  {
  }
}
