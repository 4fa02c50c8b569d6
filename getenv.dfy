/**
 * The `getenv` command: `Complete` checks the arguments and builds the
 * client, `GetEnv` fetches the pod and, container by container, classifies
 * the declared entries, resolves the queued secret and config-map
 * references, and drains the resolved map into the output.
 *
 * The resolved map `listOfEnv` is a package-level variable in the Go program;
 * here it is a field of the options object, of which a process has one.
 * The two reference batches are local to `GetEnv` and outlive every
 * container, so a container re-resolves what earlier containers queued.
 */
module GetEnv {
  import opened Kube
  import opened Classify
  import opened Resolve
  import opened Emit

  /** What loading the client configuration and building the client gave. */
  datatype Connection =
    | ConfigUnavailable(reason: string)
    | ClientUnavailable(reason: string)
    | Connected(cluster: Cluster)

  /** Every resource the batches name can be fetched. */
  predicate Fetchable(p: Pending, ns: Namespace)
  {
    p.secrets.Keys <= ns.secrets.Keys && p.configMaps.Keys <= ns.configMaps.Keys
  }

  /**
   * `e` is an error the two resolvers, run in order on `p`, may return: a
   * missing secret, or, when every secret exists, a missing config map.
   */
  ghost predicate FailureFor(p: Pending, ns: Namespace, e: Error)
  {
    && e.LookupFailed?
    && match e.kind
       case SecretKind => e.name in p.secrets && e.name !in ns.secrets
       case ConfigMapKind =>
         p.secrets.Keys <= ns.secrets.Keys && e.name in p.configMaps && e.name !in ns.configMaps
  }

  /**
   * Container `c`, classified from the resolved map `start` and the batches
   * `pending`, is resolved into `printed`: secrets first, then config maps.
   */
  ghost predicate ContainerOutcome(start: map<string, string>, pending: Pending, c: Container,
                                   ns: Namespace, printed: map<string, string>)
  {
    var cl := ClassifyAll(State(start, pending), c.env);
    exists mid :: ResolvedBy(cl.env, cl.pending.secrets, ns.secrets, mid)
               && ResolvedBy(mid, cl.pending.configMaps, ns.configMaps, printed)
  }

  /**
   * What the resolved map holds after a resolver of container `c` failed:
   * the classified entries and whatever the resolvers wrote before the
   * failing fetch.
   */
  ghost predicate PartialOutcome(start: map<string, string>, pending: Pending, c: Container,
                                 ns: Namespace, m: map<string, string>)
  {
    var cl := ClassifyAll(State(start, pending), c.env);
    || (exists done :: ResolvedBy(cl.env, Restrict(cl.pending.secrets, done), ns.secrets, m))
    || (exists mid, done :: ResolvedBy(cl.env, cl.pending.secrets, ns.secrets, mid)
                         && ResolvedBy(mid, Restrict(cl.pending.configMaps, done), ns.configMaps, m))
  }

  /** The resolved map when container `i` starts: whatever was there for the first, empty after a drain. */
  function StartOf(i: nat, initial: map<string, string>): map<string, string>
  {
    if i == 0 then initial else map[]
  }

  /**
   * The first |blocks| containers of `cs` are finished: block `i` is what
   * container `i` printed, and `printed[i]`, the map it drained, is an
   * outcome of classifying and resolving that container.
   */
  ghost predicate Printed(initial: map<string, string>, cs: seq<Container>, ns: Namespace,
                          printed: seq<map<string, string>>, blocks: seq<seq<Line>>)
    decreases |blocks|
  {
    && |printed| == |blocks| <= |cs|
    && (blocks != [] ==>
          var i := |blocks| - 1;
          && Printed(initial, cs, ns, printed[..i], blocks[..i])
          && Block(cs[i].name, printed[i], blocks[i])
          && ContainerOutcome(StartOf(i, initial), PendingAfter(cs[..i]), cs[i], ns, printed[i]))
  }

  /** The block of each finished container. */
  lemma {:induction false} PrintedBlockAt(initial: map<string, string>, cs: seq<Container>, ns: Namespace,
                                          printed: seq<map<string, string>>, blocks: seq<seq<Line>>, i: nat)
    requires Printed(initial, cs, ns, printed, blocks)
    requires i < |blocks|
    ensures Block(cs[i].name, printed[i], blocks[i])
    decreases |blocks|
  {
    var last := |blocks| - 1;
    if i < last {
      PrintedBlockAt(initial, cs, ns, printed[..last], blocks[..last], i);
      assert printed[..last][i] == printed[i] && blocks[..last][i] == blocks[i];
    }
  }

  /** The resolved map of each finished container is an outcome of classifying and resolving it. */
  lemma {:induction false} PrintedOutcomeAt(initial: map<string, string>, cs: seq<Container>, ns: Namespace,
                                            printed: seq<map<string, string>>, blocks: seq<seq<Line>>, i: nat)
    requires Printed(initial, cs, ns, printed, blocks)
    requires i < |blocks|
    ensures ContainerOutcome(StartOf(i, initial), PendingAfter(cs[..i]), cs[i], ns, printed[i])
    decreases |blocks|
  {
    var last := |blocks| - 1;
    if i < last {
      PrintedOutcomeAt(initial, cs, ns, printed[..last], blocks[..last], i);
      assert printed[..last][i] == printed[i];
    }
  }

  /** What `Printed` says of each finished container. */
  lemma PrintedAt(initial: map<string, string>, cs: seq<Container>, ns: Namespace,
                  printed: seq<map<string, string>>, blocks: seq<seq<Line>>, i: nat)
    requires Printed(initial, cs, ns, printed, blocks)
    requires i < |blocks|
    ensures Block(cs[i].name, printed[i], blocks[i])
    ensures ContainerOutcome(StartOf(i, initial), PendingAfter(cs[..i]), cs[i], ns, printed[i])
  {
    PrintedBlockAt(initial, cs, ns, printed, blocks, i);
    PrintedOutcomeAt(initial, cs, ns, printed, blocks, i);
  }


  // ---------------------------------------------------------------------
  // What a finished container prints

  /**
   * A config-map key that container `i` or any earlier container asks for
   * is printed in block `i` with the config map's value, when no two
   * queued config maps disagree on it. With `j < i` this is the batches
   * being shared across containers.
   */
  lemma ConfigMapKeyPrinted(initial: map<string, string>, cs: seq<Container>, ns: Namespace,
                            printed: seq<map<string, string>>, blocks: seq<seq<Line>>,
                            j: nat, i: nat, e: nat, ref: KeySelector)
    requires Printed(initial, cs, ns, printed, blocks)
    requires j <= i < |blocks|
    requires e < |cs[j].env| && PlaceOf(cs[j].env[e]) == Referenced(ConfigMapKind, ref)
    requires ref.name in ns.configMaps
    requires Unambiguous(PendingAfter(cs[..i + 1]).configMaps, ns.configMaps, ref.key)
    ensures Var(ref.key, DataAt(ns.configMaps[ref.name], ref.key)) in blocks[i]
  {
    PrintedAt(initial, cs, ns, printed, blocks, i);
    var cl := ClassifyAll(State(StartOf(i, initial), PendingAfter(cs[..i])), cs[i].env);
    PendingAfterStep(cs, i, StartOf(i, initial));
    RequestsHas(cs[j].env, e, ConfigMapKind, ref);
    EarlierRequestsStayPending(cs, j, i, ConfigMapKind, ref.name);
    var mid :| ResolvedBy(cl.env, cl.pending.secrets, ns.secrets, mid)
            && ResolvedBy(mid, cl.pending.configMaps, ns.configMaps, printed[i]);
    ResolvedValue(mid, cl.pending.configMaps, ns.configMaps, printed[i], ref.name, ref.key);
    BlockLines(cs[i].name, printed[i], blocks[i]);
  }

  /**
   * A secret key that container `i` or an earlier one asks for, and that
   * no queued config map is asked for, is printed in block `i` with the
   * secret's value, when no two queued secrets disagree on it.
   */
  lemma SecretKeyPrinted(initial: map<string, string>, cs: seq<Container>, ns: Namespace,
                         printed: seq<map<string, string>>, blocks: seq<seq<Line>>,
                         j: nat, i: nat, e: nat, ref: KeySelector)
    requires Printed(initial, cs, ns, printed, blocks)
    requires j <= i < |blocks|
    requires e < |cs[j].env| && PlaceOf(cs[j].env[e]) == Referenced(SecretKind, ref)
    requires ref.name in ns.secrets
    requires Unambiguous(PendingAfter(cs[..i + 1]).secrets, ns.secrets, ref.key)
    requires ref.key !in Requested(PendingAfter(cs[..i + 1]).configMaps)
    ensures Var(ref.key, DataAt(ns.secrets[ref.name], ref.key)) in blocks[i]
  {
    PrintedAt(initial, cs, ns, printed, blocks, i);
    var cl := ClassifyAll(State(StartOf(i, initial), PendingAfter(cs[..i])), cs[i].env);
    PendingAfterStep(cs, i, StartOf(i, initial));
    RequestsHas(cs[j].env, e, SecretKind, ref);
    EarlierRequestsStayPending(cs, j, i, SecretKind, ref.name);
    var mid :| ResolvedBy(cl.env, cl.pending.secrets, ns.secrets, mid)
            && ResolvedBy(mid, cl.pending.configMaps, ns.configMaps, printed[i]);
    ResolvedValue(cl.env, cl.pending.secrets, ns.secrets, mid, ref.name, ref.key);
    BlockLines(cs[i].name, printed[i], blocks[i]);
  }

  /**
   * A literal or field entry of container `i` that no later entry of it
   * overrides, under a name no queued reference writes, is printed with
   * its value.
   */
  lemma ResolvedEntryPrinted(initial: map<string, string>, cs: seq<Container>, ns: Namespace,
                             printed: seq<map<string, string>>, blocks: seq<seq<Line>>,
                             i: nat, e: nat, n: string)
    requires Printed(initial, cs, ns, printed, blocks)
    requires i < |blocks|
    requires ResolvedAt(cs[i].env, e, n)
    requires forall e' :: e < e' < |cs[i].env| ==> !ResolvedAt(cs[i].env, e', n)
    requires n !in Requested(PendingAfter(cs[..i + 1]).secrets)
    requires n !in Requested(PendingAfter(cs[..i + 1]).configMaps)
    ensures Var(n, PlaceOf(cs[i].env[e]).value) in blocks[i]
  {
    PrintedAt(initial, cs, ns, printed, blocks, i);
    var s := State(StartOf(i, initial), PendingAfter(cs[..i]));
    var cl := ClassifyAll(s, cs[i].env);
    PendingAfterStep(cs, i, StartOf(i, initial));
    ClassifyAllLastWins(s, cs[i].env, n, e);
    var mid :| ResolvedBy(cl.env, cl.pending.secrets, ns.secrets, mid)
            && ResolvedBy(mid, cl.pending.configMaps, ns.configMaps, printed[i]);
    BlockLines(cs[i].name, printed[i], blocks[i]);
  }

  /**
   * A name that no entry of container `i` resolves (a skipped injected
   * literal, say), that no queued reference writes and that was not left
   * in the resolved map before it, is not printed.
   */
  lemma UnsourcedNotPrinted(initial: map<string, string>, cs: seq<Container>, ns: Namespace,
                            printed: seq<map<string, string>>, blocks: seq<seq<Line>>,
                            i: nat, n: string)
    requires Printed(initial, cs, ns, printed, blocks)
    requires i < |blocks|
    requires forall e :: 0 <= e < |cs[i].env| ==> !ResolvedAt(cs[i].env, e, n)
    requires n !in Requested(PendingAfter(cs[..i + 1]).secrets)
    requires n !in Requested(PendingAfter(cs[..i + 1]).configMaps)
    requires n !in StartOf(i, initial)
    ensures forall l :: l in blocks[i] && l.Var? ==> l.key != n
  {
    PrintedAt(initial, cs, ns, printed, blocks, i);
    var s := State(StartOf(i, initial), PendingAfter(cs[..i]));
    var cl := ClassifyAll(s, cs[i].env);
    PendingAfterStep(cs, i, StartOf(i, initial));
    ClassifyAllUntouched(s, cs[i].env, n);
    var mid :| ResolvedBy(cl.env, cl.pending.secrets, ns.secrets, mid)
            && ResolvedBy(mid, cl.pending.configMaps, ns.configMaps, printed[i]);
    BlockLines(cs[i].name, printed[i], blocks[i]);
  }

  /**
   * Nothing else is printed: every key in block `i` was in the resolved map
   * before the container, is resolved by one of its entries, or is asked
   * for by a queued reference.
   */
  lemma PrintedKeysSourced(initial: map<string, string>, cs: seq<Container>, ns: Namespace,
                           printed: seq<map<string, string>>, blocks: seq<seq<Line>>, i: nat)
    requires Printed(initial, cs, ns, printed, blocks)
    requires i < |blocks|
    ensures forall l :: l in blocks[i] && l.Var? ==>
      || l.key in StartOf(i, initial)
      || (exists e :: ResolvedAt(cs[i].env, e, l.key))
      || l.key in Requested(PendingAfter(cs[..i + 1]).secrets)
      || l.key in Requested(PendingAfter(cs[..i + 1]).configMaps)
  {
    PrintedAt(initial, cs, ns, printed, blocks, i);
    var s := State(StartOf(i, initial), PendingAfter(cs[..i]));
    var cl := ClassifyAll(s, cs[i].env);
    PendingAfterStep(cs, i, StartOf(i, initial));
    var mid :| ResolvedBy(cl.env, cl.pending.secrets, ns.secrets, mid)
            && ResolvedBy(mid, cl.pending.configMaps, ns.configMaps, printed[i]);
    BlockLines(cs[i].name, printed[i], blocks[i]);
    forall l | l in blocks[i] && l.Var?
      ensures || l.key in StartOf(i, initial)
              || (exists e :: ResolvedAt(cs[i].env, e, l.key))
              || l.key in Requested(cl.pending.secrets)
              || l.key in Requested(cl.pending.configMaps)
    {
      if forall e :: 0 <= e < |cs[i].env| ==> !ResolvedAt(cs[i].env, e, l.key) {
        ClassifyAllUntouched(s, cs[i].env, l.key);
      }
    }
  }

  /**
   * A later container that declares no entries prints only keys that the
   * queued references, left by the containers before it, ask for.
   */
  lemma EmptyContainerPrintsQueued(initial: map<string, string>, cs: seq<Container>, ns: Namespace,
                                   printed: seq<map<string, string>>, blocks: seq<seq<Line>>, i: nat)
    requires Printed(initial, cs, ns, printed, blocks)
    requires 0 < i < |blocks| && cs[i].env == []
    ensures forall l :: l in blocks[i] && l.Var? ==>
      l.key in Requested(PendingAfter(cs[..i + 1]).secrets) || l.key in Requested(PendingAfter(cs[..i + 1]).configMaps)
  {
    PrintedKeysSourced(initial, cs, ns, printed, blocks, i);
  }

  /**
   * A later container that declares no entries, when the only queued
   * reference is one config-map key `k`, prints nothing but `k`.
   */
  lemma OneQueuedKeyPrinted(initial: map<string, string>, cs: seq<Container>, ns: Namespace,
                            printed: seq<map<string, string>>, blocks: seq<seq<Line>>,
                            i: nat, r: string, k: string)
    requires Printed(initial, cs, ns, printed, blocks)
    requires 0 < i < |blocks| && cs[i].env == []
    requires PendingAfter(cs[..i + 1]) == Pending(map[], map[r := [k]])
    ensures forall l :: l in blocks[i] && l.Var? ==> l.key == k
  {
    EmptyContainerPrintsQueued(initial, cs, ns, printed, blocks, i);
    RequestedOne(r, [k]);
    assert Requested(map[]) == {};
  }

  /**
   * A container that resolves nothing, after containers that queued no
   * reference, with nothing left in the resolved map, prints the
   * placeholder.
   */
  lemma EmptyContainerPrintsPlaceholder(initial: map<string, string>, cs: seq<Container>, ns: Namespace,
                                        printed: seq<map<string, string>>, blocks: seq<seq<Line>>, i: nat)
    requires Printed(initial, cs, ns, printed, blocks)
    requires i < |blocks|
    requires forall e :: 0 <= e < |cs[i].env| ==> !PlaceOf(cs[i].env[e]).Resolved?
    requires PendingAfter(cs[..i + 1]) == NoPending
    requires StartOf(i, initial) == map[]
    ensures blocks[i] == [Header(cs[i].name), Placeholder(cs[i].name), Separator]
  {
    PrintedAt(initial, cs, ns, printed, blocks, i);
    var s := State(StartOf(i, initial), PendingAfter(cs[..i]));
    var cl := ClassifyAll(s, cs[i].env);
    PendingAfterStep(cs, i, StartOf(i, initial));
    forall n ensures n !in cl.env {
      ClassifyAllUntouched(s, cs[i].env, n);
    }
    var mid :| ResolvedBy(cl.env, cl.pending.secrets, ns.secrets, mid)
            && ResolvedBy(mid, cl.pending.configMaps, ns.configMaps, printed[i]);
    assert Requested(map[]) == {};
    assert printed[i] == map[];
    BlockLines(cs[i].name, printed[i], blocks[i]);
  }

  /** The selector of the example below: key `mode` of config map `settings`. */
  const ModeRef := KeySelector("settings", "mode")

  /** Two containers: the first maps `APP_MODE` to `ModeRef`, the second declares nothing. */
  const SharedPod := [Container("app", [EnvVar("APP_MODE", "", Some(EnvVarSource(Some(ModeRef), None, None)))]),
                      Container("sidecar", [])]

  /** After either container, the config-map batch asks `settings` for `mode` and the secret batch is empty. */
  lemma SharedPodBatches()
    ensures PendingAfter(SharedPod[..1]) == Pending(map[], map[ModeRef.name := [ModeRef.key]])
    ensures PendingAfter(SharedPod[..2]) == Pending(map[], map[ModeRef.name := [ModeRef.key]])
  {
    var cs := SharedPod;
    var s0 := State(map[], NoPending);
    var e0 := cs[0].env[0];
    var queued := Pending(map[], map[ModeRef.name := [ModeRef.key]]);
    assert cs[0].env[..0] == [];
    assert ClassifyAll(s0, cs[0].env) == Step(s0, e0);
    assert PlaceOf(e0) == Referenced(ConfigMapKind, ModeRef);
    assert KeysOf(map[], ModeRef.name) + [ModeRef.key] == [ModeRef.key];
    assert Step(s0, e0).pending == NoPending.Add(ConfigMapKind, ModeRef) == queued;
    assert cs[..1][..0] == [] && cs[..1][0] == cs[0];
    assert cs[..2][..1] == cs[..1] && cs[..2][1] == cs[1];
  }

  /**
   * Both blocks of `SharedPod` print `mode` (the key's name, not the
   * variable's) with the config map's value: the second container prints
   * what only the first asked for.
   */
  lemma SharedPodPrintsMode(initial: map<string, string>, ns: Namespace,
                            printed: seq<map<string, string>>, blocks: seq<seq<Line>>)
    requires ns.configMaps == map["settings" := map["mode" := "debug"]]
    requires Printed(initial, SharedPod, ns, printed, blocks)
    requires |blocks| == 2
    ensures Var("mode", "debug") in blocks[0]
    ensures Var("mode", "debug") in blocks[1]
  {
    ConfigMapKeyPrinted(initial, SharedPod, ns, printed, blocks, 0, 0, 0, ModeRef);
    ConfigMapKeyPrinted(initial, SharedPod, ns, printed, blocks, 0, 1, 0, ModeRef);
  }

  /** The second block of `SharedPod` prints nothing but `mode`. */
  lemma SharedPodSidecarOnlyMode(initial: map<string, string>, ns: Namespace,
                                 printed: seq<map<string, string>>, blocks: seq<seq<Line>>)
    requires Printed(initial, SharedPod, ns, printed, blocks)
    requires |blocks| == 2
    ensures forall l :: l in blocks[1] && l.Var? ==> l.key == "mode"
  {
    SharedPodBatches();
    assert SharedPod[..2] == SharedPod;
    OneQueuedKeyPrinted(initial, SharedPod, ns, printed, blocks, 1, ModeRef.name, ModeRef.key);
  }

  /** One more finished container. */
  lemma PrintedSnoc(initial: map<string, string>, cs: seq<Container>, ns: Namespace,
                    printed: seq<map<string, string>>, blocks: seq<seq<Line>>,
                    m: map<string, string>, lines: seq<Line>)
    requires Printed(initial, cs, ns, printed, blocks)
    requires |blocks| < |cs|
    requires Block(cs[|blocks|].name, m, lines)
    requires ContainerOutcome(StartOf(|blocks|, initial), PendingAfter(cs[..|blocks|]), cs[|blocks|], ns, m)
    ensures Printed(initial, cs, ns, printed + [m], blocks + [lines])
  {
  }

  /**
   * How the command stops after the finished `blocks` when a lookup for the
   * next container fails with `e`: the output ends with that container's
   * heading, its batches are the first to name a missing resource, and the
   * resolved map `after` holds what it had resolved.
   */
  ghost predicate Stopped(initial: map<string, string>, cs: seq<Container>, ns: Namespace,
                          blocks: seq<seq<Line>>, out: seq<Line>, e: Error, after: map<string, string>)
  {
    && |blocks| < |cs|
    && out == Flatten(blocks) + [Header(cs[|blocks|].name)]
    && Fetchable(PendingAfter(cs[..|blocks|]), ns)
    && FailureFor(PendingAfter(cs[..|blocks| + 1]), ns, e)
    && PartialOutcome(StartOf(|blocks|, initial), PendingAfter(cs[..|blocks|]), cs[|blocks|], ns, after)
  }

  /** A container whose resolver failed stops the command. */
  lemma StoppedAt(initial: map<string, string>, cs: seq<Container>, ns: Namespace,
                  blocks: seq<seq<Line>>, e: Error, after: map<string, string>)
    requires |blocks| < |cs|
    requires Fetchable(PendingAfter(cs[..|blocks|]), ns)
    requires var cl := ClassifyAll(State(StartOf(|blocks|, initial), PendingAfter(cs[..|blocks|])), cs[|blocks|].env);
      && FailureFor(cl.pending, ns, e)
      && PartialOutcome(StartOf(|blocks|, initial), PendingAfter(cs[..|blocks|]), cs[|blocks|], ns, after)
    ensures Stopped(initial, cs, ns, blocks, Flatten(blocks) + [Header(cs[|blocks|].name)], e, after)
    ensures !Fetchable(PendingAfter(cs), ns)
  {
    var i := |blocks|;
    PendingAfterStep(cs, i, StartOf(i, initial));
    NotFetchableLater(cs, i + 1, ns);
  }

  /** Once a container's batches name a missing resource, so do the batches of the whole pod. */
  lemma NotFetchableLater(cs: seq<Container>, i: nat, ns: Namespace)
    requires i <= |cs|
    requires !Fetchable(PendingAfter(cs[..i]), ns)
    ensures !Fetchable(PendingAfter(cs), ns)
  {
    var p := PendingAfter(cs[..i]);
    if !(p.secrets.Keys <= ns.secrets.Keys) {
      var r :| r in p.secrets && r !in ns.secrets;
      PendingGrows(cs, i, SecretKind, r);
    } else {
      var r :| r in p.configMaps && r !in ns.configMaps;
      PendingGrows(cs, i, ConfigMapKind, r);
    }
  }

  class GetEnvOptions {
    var pod: string
    var namespace: string
    var args: seq<string>
    var clientSet: Option<Cluster>
    /** The package-level resolved map, shared by every container. */
    var listOfEnv: map<string, string>

    /** `NewGetEnvOptions`, with the `--namespace` flag's value (default "default"). */
    constructor (namespace: string)
      ensures this.namespace == namespace
      ensures pod == "" && args == [] && clientSet == None && listOfEnv == map[]
    {
      this.namespace := namespace;
      pod := "";
      args := [];
      clientSet := None;
      listOfEnv := map[];
    }

    /** The namespace the client reads. */
    function Ns(): Namespace
      reads this`clientSet, this`namespace
      requires clientSet.Some?
    {
      InNamespace(clientSet.value, namespace)
    }

    /** Records the arguments, takes the pod name from the first, and builds the client. */
    method Complete(args: seq<string>, conn: Connection) returns (err: Option<Error>)
      modifies this`args, this`pod, this`clientSet
      ensures this.args == args
      ensures |args| == 0 ==> err == Some(MissingPodName) && pod == old(pod) && clientSet == old(clientSet)
      ensures |args| > 0 ==> pod == args[0]
      ensures |args| > 0 && conn.ConfigUnavailable? ==>
        err == Some(ConfigLoadFailed(conn.reason)) && clientSet == old(clientSet)
      ensures |args| > 0 && conn.ClientUnavailable? ==>
        err == Some(ClientBuildFailed(conn.reason)) && clientSet == None
      ensures |args| > 0 && conn.Connected? ==> err == None && clientSet == Some(conn.cluster)
    {
      this.args := args;
      if |args| == 0 {
        return Some(MissingPodName);
      }
      pod := args[0];
      match conn {
        case ConfigUnavailable(why) =>
          return Some(ConfigLoadFailed(why));
        case ClientUnavailable(why) =>
          clientSet := None;
          return Some(ClientBuildFailed(why));
        case Connected(cluster) =>
          clientSet := Some(cluster);
          return None;
      }
    }

    /** The loop over one container's entries; the batches come in and go out. */
    method ClassifyEnv(env: seq<EnvVar>, secretEnv: Batch, configMapEnv: Batch)
      returns (secrets: Batch, configMaps: Batch)
      modifies this`listOfEnv
      ensures State(listOfEnv, Pending(secrets, configMaps))
           == ClassifyAll(State(old(listOfEnv), Pending(secretEnv, configMapEnv)), env)
    {
      secrets, configMaps := secretEnv, configMapEnv;
      for i := 0 to |env|
        invariant State(listOfEnv, Pending(secrets, configMaps))
               == ClassifyAll(State(old(listOfEnv), Pending(secretEnv, configMapEnv)), env[..i])
      {
        var e := env[i];
        assert env[..i + 1][..i] == env[..i];
        if e.valueFrom.None? {
          if !HasPrefix(e.name, InjectedPrefix) {
            listOfEnv := listOfEnv[e.name := e.value];
          }
        } else {
          var src := e.valueFrom.value;
          if src.configMapKeyRef.Some? {
            var ref := src.configMapKeyRef.value;
            configMaps := configMaps[ref.name := KeysOf(configMaps, ref.name) + [ref.key]];
          } else if src.secretKeyRef.Some? {
            var ref := src.secretKeyRef.value;
            secrets := secrets[ref.name := KeysOf(secrets, ref.name) + [ref.key]];
          } else if src.fieldRef.Some? {
            listOfEnv := listOfEnv[e.name := src.fieldRef.value];
          }
        }
      }
      assert env[..|env|] == env;
    }

    /** The loop over the keys requested from one fetched resource with data `data`. */
    method WriteKeys(data: Data, keys: seq<string>)
      modifies this`listOfEnv
      ensures listOfEnv == old(listOfEnv) + Supplied(data, keys)
    {
      for j := 0 to |keys|
        invariant listOfEnv == old(listOfEnv) + Supplied(data, keys[..j])
      {
        SuppliedSnoc(old(listOfEnv), data, keys, j);
        listOfEnv := listOfEnv[keys[j] := DataAt(data, keys[j])];
      }
      assert keys[..|keys|] == keys;
    }

    /**
     * The loop shared by `getSecret` and `getConfigMap`: fetch each resource
     * of the batch once, in some order, and write its requested keys.
     * `fetched` lists the fetches in the order they were made, and `done`
     * the resources whose keys were written. On failure these are the
     * fetches before the failing one, and the map resolves exactly them.
     */
    method ResolveBatch(batch: Batch, store: map<string, Data>, kind: Kind)
      returns (err: Option<Error>, ghost fetched: seq<string>, ghost done: set<string>)
      modifies this`listOfEnv
      ensures BatchOutcome(old(listOfEnv), batch, store, kind, err, listOfEnv)
      ensures forall i, j :: 0 <= i < j < |fetched| ==> fetched[i] != fetched[j]
      ensures forall r :: r in fetched ==> r in batch
      ensures err.None? ==> forall r :: r in batch ==> r in fetched
      ensures err.Some? ==> fetched != [] && fetched[|fetched| - 1] == err.value.name
      ensures err.Some? ==> forall j :: 0 <= j < |fetched| - 1 ==> fetched[j] in store
      ensures err.None? ==> done == batch.Keys
      ensures err.Some? ==> forall r :: r in done <==> r in fetched[..|fetched| - 1]
      ensures ResolvedBy(old(listOfEnv), Restrict(batch, done), store, listOfEnv)
    {
      fetched := [];
      var remaining := batch.Keys;
      done := {};
      ResolvedByNothing(old(listOfEnv), batch, store);
      while remaining != {}
        invariant remaining <= batch.Keys && done == batch.Keys - remaining
        invariant done <= store.Keys
        invariant ResolvedBy(old(listOfEnv), Restrict(batch, done), store, listOfEnv)
        invariant forall i, j :: 0 <= i < j < |fetched| ==> fetched[i] != fetched[j]
        invariant forall r :: r in fetched <==> r in done
        invariant forall r :: r in fetched ==> r in store
        decreases remaining
      {
        var r :| r in remaining;
        ghost var pre := fetched;
        fetched := fetched + [r];
        if r !in store {
          assert fetched[..|fetched| - 1] == pre;
          return Some(LookupFailed(kind, r)), fetched, done;
        }
        ghost var mid := listOfEnv;
        WriteKeys(store[r], batch[r]);
        ResolveOneMore(old(listOfEnv), batch, store, done, r, mid);
        done := done + {r};
        remaining := remaining - {r};
      }
      RestrictAll(batch, done);
      return None, fetched, done;
    }

    /** `getSecret`: resolve the secret batch into the resolved map. */
    method GetSecret(secretMap: Batch) returns (err: Option<Error>)
      requires clientSet.Some?
      modifies this`listOfEnv
      ensures BatchOutcome(old(listOfEnv), secretMap, Ns().secrets, SecretKind, err, listOfEnv)
    {
      ghost var fetched, done;
      err, fetched, done := ResolveBatch(secretMap, Ns().secrets, SecretKind);
    }

    /** `getConfigMap`: resolve the config-map batch into the resolved map. */
    method GetConfigMap(configMap: Batch) returns (err: Option<Error>)
      requires clientSet.Some?
      modifies this`listOfEnv
      ensures BatchOutcome(old(listOfEnv), configMap, Ns().configMaps, ConfigMapKind, err, listOfEnv)
    {
      ghost var fetched, done;
      err, fetched, done := ResolveBatch(configMap, Ns().configMaps, ConfigMapKind);
    }

    /**
     * Print the resolved map and empty it: the placeholder when it is empty,
     * otherwise one line per entry, each entry deleted once printed.
     */
    method Drain(container: string) returns (lines: seq<Line>)
      modifies this`listOfEnv
      ensures listOfEnv == map[]
      ensures Drained(container, old(listOfEnv), lines)
    {
      if |listOfEnv| == 0 {
        return [Placeholder(container)];
      }
      lines := [];
      ghost var shown: map<string, string> := map[];
      while listOfEnv != map[]
        invariant listOfEnv.Keys !! shown.Keys
        invariant old(listOfEnv) == listOfEnv + shown
        invariant Lists(shown, lines)
        decreases |listOfEnv|
      {
        var key :| key in listOfEnv;
        DrainStep(listOfEnv, shown, lines, key);
        lines := lines + [Var(key, listOfEnv[key])];
        shown := shown[key := listOfEnv[key]];
        listOfEnv := listOfEnv - {key};
      }
      assert listOfEnv + shown == shown;
    }

    /**
     * One turn of the loop over the pod's containers: the heading, the
     * classification, the two resolvers (secrets first) and the drain,
     * which with the separator is skipped when a resolver fails.
     */
    method ProcessContainer(c: Container, secretEnv: Batch, configMapEnv: Batch)
      returns (lines: seq<Line>, err: Option<Error>, secrets: Batch, configMaps: Batch,
               ghost printed: map<string, string>)
      requires clientSet.Some?
      modifies this`listOfEnv
      ensures var cl := ClassifyAll(State(old(listOfEnv), Pending(secretEnv, configMapEnv)), c.env);
        && Pending(secrets, configMaps) == cl.pending
        && (err.None? <==> Fetchable(cl.pending, Ns()))
        && (err.None? ==>
              && ContainerOutcome(old(listOfEnv), Pending(secretEnv, configMapEnv), c, Ns(), printed)
              && Block(c.name, printed, lines)
              && listOfEnv == map[])
        && (err.Some? ==>
              && lines == [Header(c.name)]
              && FailureFor(cl.pending, Ns(), err.value)
              && PartialOutcome(old(listOfEnv), Pending(secretEnv, configMapEnv), c, Ns(), listOfEnv))
    {
      ghost var start := listOfEnv;
      ghost var ns := Ns();
      lines := [Header(c.name)];
      secrets, configMaps := ClassifyEnv(c.env, secretEnv, configMapEnv);
      ghost var classified := listOfEnv;
      err := GetSecret(secrets);
      if err.Some? {
        return lines, err, secrets, configMaps, map[];
      }
      ghost var mid := listOfEnv;
      err := GetConfigMap(configMaps);
      if err.Some? {
        return lines, err, secrets, configMaps, map[];
      }
      printed := listOfEnv;
      assert ResolvedBy(classified, secrets, ns.secrets, mid);
      var body := Drain(c.name);
      lines := lines + body + [Separator];
      assert lines[1..|lines| - 1] == body;
    }

    /**
     * `GetEnv`: fetch the pod and print one block per container. `printed`
     * holds each finished container's resolved map and `blocks` its lines;
     * on a failed lookup the output stops after the failing container's
     * heading.
     */
    method GetEnv() returns (out: seq<Line>, err: Option<Error>,
                             ghost printed: seq<map<string, string>>, ghost blocks: seq<seq<Line>>)
      requires clientSet.Some?
      modifies this`listOfEnv
      ensures pod !in Ns().pods ==> err == Some(PodLookupFailed(pod)) && out == [] && listOfEnv == old(listOfEnv)
      ensures pod in Ns().pods ==>
        var ns := Ns();
        var cs := ns.pods[pod].containers;
        && (err.None? <==> Fetchable(PendingAfter(cs), ns))
        && Printed(old(listOfEnv), cs, ns, printed, blocks)
        && (err.None? ==>
              && |blocks| == |cs|
              && out == Flatten(blocks)
              && listOfEnv == StartOf(|cs|, old(listOfEnv)))
        && (err.Some? ==> Stopped(old(listOfEnv), cs, ns, blocks, out, err.value, listOfEnv))
    {
      var ns := Ns();
      var configMapEnv: Batch := map[];
      var secretEnv: Batch := map[];
      printed, blocks := [], [];
      if pod !in ns.pods {
        return [], Some(PodLookupFailed(pod)), printed, blocks;
      }
      var cs := ns.pods[pod].containers;
      out, err := [], None;
      for i := 0 to |cs|
        invariant |printed| == |blocks| == i
        invariant out == Flatten(blocks)
        invariant Pending(secretEnv, configMapEnv) == PendingAfter(cs[..i])
        invariant listOfEnv == StartOf(i, old(listOfEnv))
        invariant Fetchable(PendingAfter(cs[..i]), ns)
        invariant Printed(old(listOfEnv), cs, ns, printed, blocks)
      {
        ghost var start := listOfEnv;
        PendingAfterStep(cs, i, start);
        var lines, e;
        ghost var m;
        lines, e, secretEnv, configMapEnv, m := ProcessContainer(cs[i], secretEnv, configMapEnv);
        assert Ns() == ns;
        if e.Some? {
          StoppedAt(old(listOfEnv), cs, ns, blocks, e.value, listOfEnv);
          return out + lines, e, printed, blocks;
        }
        FlattenSnoc(blocks, lines);
        PrintedSnoc(old(listOfEnv), cs, ns, printed, blocks, m, lines);
        out := out + lines;
        printed := printed + [m];
        blocks := blocks + [lines];
      }
      assert cs[..|cs|] == cs;
    }

    /**
     * The command's `RunE`: `Complete`, then `GetEnv`; the first error is
     * the command's error, and nothing is printed before `GetEnv` runs.
     */
    method Run(args: seq<string>, conn: Connection)
      returns (out: seq<Line>, err: Option<Error>,
               ghost printed: seq<map<string, string>>, ghost blocks: seq<seq<Line>>)
      modifies this`args, this`pod, this`clientSet, this`listOfEnv
      ensures this.args == args
      ensures |args| == 0 || !conn.Connected? ==> listOfEnv == old(listOfEnv)
      ensures |args| == 0 ==>
        err == Some(MissingPodName) && out == [] && pod == old(pod) && clientSet == old(clientSet)
      ensures |args| > 0 ==> pod == args[0]
      ensures |args| > 0 && conn.ConfigUnavailable? ==>
        err == Some(ConfigLoadFailed(conn.reason)) && out == [] && clientSet == old(clientSet)
      ensures |args| > 0 && conn.ClientUnavailable? ==>
        err == Some(ClientBuildFailed(conn.reason)) && out == [] && clientSet == None
      ensures |args| > 0 && conn.Connected? ==>
        var ns := InNamespace(conn.cluster, namespace);
        && clientSet == Some(conn.cluster)
        && (args[0] !in ns.pods ==>
              err == Some(PodLookupFailed(args[0])) && out == [] && listOfEnv == old(listOfEnv))
        && (args[0] in ns.pods ==>
              var cs := ns.pods[args[0]].containers;
              && (err.None? <==> Fetchable(PendingAfter(cs), ns))
              && Printed(old(listOfEnv), cs, ns, printed, blocks)
              && (err.None? ==>
                    && |blocks| == |cs|
                    && out == Flatten(blocks)
                    && listOfEnv == StartOf(|cs|, old(listOfEnv)))
              && (err.Some? ==> Stopped(old(listOfEnv), cs, ns, blocks, out, err.value, listOfEnv)))
    {
      err := Complete(args, conn);
      if err.Some? {
        return [], err, [], [];
      }
      assert Ns() == InNamespace(conn.cluster, namespace);
      out, err, printed, blocks := GetEnv();
    }
  }
}
