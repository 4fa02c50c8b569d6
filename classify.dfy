/**
 * The classifier of `GetEnv`: every declared environment entry of a
 * container goes to exactly one place. Literal values and field references
 * go straight into the resolved map; config-map and secret references are
 * queued, by resource name, for the resolver; the rest is dropped.
 *
 * `Step` is one turn of the loop over `container.Env`, `ClassifyAll` the
 * whole loop, and `PendingAfter` the reference batches after the loop has
 * run for a prefix of the pod's containers (the batches are created once
 * per command, so they are never emptied between containers).
 */
module Classify {
  import opened Kube

  /** Literal entries whose name starts with this are injected by the cluster and skipped. */
  const InjectedPrefix: string := "KUBERNETES_"

  /** `strings.HasPrefix`. */
  predicate HasPrefix(s: string, prefix: string)
  {
    |prefix| <= |s| && s[..|prefix|] == prefix
  }

  /** `s` starts with `prefix` exactly when `prefix` is no longer and agrees with `s` character by character. */
  lemma HasPrefixPointwise(s: string, prefix: string)
    ensures HasPrefix(s, prefix) <==> |prefix| <= |s| && forall i :: 0 <= i < |prefix| ==> s[i] == prefix[i]
  {
    if |prefix| <= |s| && forall i :: 0 <= i < |prefix| ==> s[i] == prefix[i] {
      assert s[..|prefix|] == prefix;
    }
  }

  /** Where one entry goes. */
  datatype Place =
    | Resolved(value: string)               // written into the resolved map under the entry's name
    | Referenced(kind: Kind, ref: KeySelector)  // queued for the resolver of that kind
    | Nowhere                                // dropped

  /**
   * The branch structure of the loop body: no value source means a literal
   * (skipped under the injected prefix); otherwise the config-map reference
   * is checked first, then the secret reference, then the field reference,
   * whose field path is stored as the value.
   */
  function PlaceOf(e: EnvVar): Place
  {
    match e.valueFrom
    case None =>
      if HasPrefix(e.name, InjectedPrefix) then Nowhere else Resolved(e.value)
    case Some(src) =>
      if src.configMapKeyRef.Some? then Referenced(ConfigMapKind, src.configMapKeyRef.value)
      else if src.secretKeyRef.Some? then Referenced(SecretKind, src.secretKeyRef.value)
      else if src.fieldRef.Some? then Resolved(src.fieldRef.value)
      else Nowhere
  }

  /** A reference batch: resource name to the keys requested from it, in request order. */
  type Batch = map<string, seq<string>>

  /** `b[name]`, which is the nil slice when `name` is absent. */
  function KeysOf(b: Batch, name: string): seq<string>
  {
    if name in b then b[name] else []
  }

  /** The two batches, `secretEnv` and `configMapEnv`. */
  datatype Pending = Pending(secrets: Batch, configMaps: Batch)
  {
    function Of(kind: Kind): Batch
    {
      match kind
      case SecretKind => secrets
      case ConfigMapKind => configMaps
    }

    /** `batch[ref.name] = append(batch[ref.name], ref.key)` on the batch of `kind`. */
    function Add(kind: Kind, ref: KeySelector): (p: Pending)
      ensures forall k: Kind :: k != kind ==> p.Of(k) == Of(k)
      ensures p.Of(kind).Keys == Of(kind).Keys + {ref.name}
      ensures forall n :: KeysOf(p.Of(kind), n) == (if n == ref.name then KeysOf(Of(kind), n) + [ref.key] else KeysOf(Of(kind), n))
    {
      match kind
      case SecretKind =>
        this.(secrets := secrets[ref.name := KeysOf(secrets, ref.name) + [ref.key]])
      case ConfigMapKind =>
        this.(configMaps := configMaps[ref.name := KeysOf(configMaps, ref.name) + [ref.key]])
    }
  }

  const NoPending := Pending(map[], map[])

  /** The resolved map together with the two batches. */
  datatype State = State(env: map<string, string>, pending: Pending)

  /** One turn of the loop over a container's entries. */
  function Step(s: State, e: EnvVar): State
  {
    match PlaceOf(e)
    case Resolved(v) => s.(env := s.env[e.name := v])
    case Referenced(kind, ref) => s.(pending := s.pending.Add(kind, ref))
    case Nowhere => s
  }

  /** The whole loop over `envs`, in order. */
  function ClassifyAll(s: State, envs: seq<EnvVar>): State
    decreases |envs|
  {
    if envs == [] then s
    else Step(ClassifyAll(s, envs[..|envs| - 1]), envs[|envs| - 1])
  }

  /** The batches after classifying the containers `cs` one after the other, from empty batches. */
  function PendingAfter(cs: seq<Container>): Pending
    decreases |cs|
  {
    if cs == [] then NoPending
    else ClassifyAll(State(map[], PendingAfter(cs[..|cs| - 1])), cs[|cs| - 1].env).pending
  }

  // ---------------------------------------------------------------------
  // One entry

  /** A literal is stored under its name exactly when the name lacks the injected prefix. */
  lemma LiteralEntry(s: State, e: EnvVar)
    requires e.valueFrom.None?
    ensures Step(s, e).pending == s.pending
    ensures !HasPrefix(e.name, InjectedPrefix) ==> Step(s, e).env == s.env[e.name := e.value]
    ensures HasPrefix(e.name, InjectedPrefix) ==> Step(s, e) == s
  {
  }

  /** A field reference stores its field path, not a live value, under the entry's name. */
  lemma FieldRefEntry(s: State, e: EnvVar)
    requires e.valueFrom.Some? && e.valueFrom.value.fieldRef.Some?
    requires e.valueFrom.value.configMapKeyRef.None? && e.valueFrom.value.secretKeyRef.None?
    ensures Step(s, e) == s.(env := s.env[e.name := e.valueFrom.value.fieldRef.value])
  {
  }

  /**
   * A config-map reference wins over any other source set beside it; it
   * appends its key to the config-map batch and changes nothing else.
   */
  lemma ConfigMapRefEntry(s: State, e: EnvVar)
    requires e.valueFrom.Some? && e.valueFrom.value.configMapKeyRef.Some?
    ensures Step(s, e).env == s.env && Step(s, e).pending.secrets == s.pending.secrets
    ensures var ref := e.valueFrom.value.configMapKeyRef.value;
      Step(s, e).pending.configMaps == s.pending.configMaps[ref.name := KeysOf(s.pending.configMaps, ref.name) + [ref.key]]
  {
  }

  /** A secret reference (with no config-map reference) appends its key to the secret batch only. */
  lemma SecretRefEntry(s: State, e: EnvVar)
    requires e.valueFrom.Some? && e.valueFrom.value.configMapKeyRef.None?
    requires e.valueFrom.value.secretKeyRef.Some?
    ensures Step(s, e).env == s.env && Step(s, e).pending.configMaps == s.pending.configMaps
    ensures var ref := e.valueFrom.value.secretKeyRef.value;
      Step(s, e).pending.secrets == s.pending.secrets[ref.name := KeysOf(s.pending.secrets, ref.name) + [ref.key]]
  {
  }

  /**
   * A value source with none of the three set changes nothing. Such a
   * source is in practice a `resourceFieldRef`, which the switch skips.
   */
  lemma EmptySourceEntry(s: State, e: EnvVar)
    requires e.valueFrom.Some?
    requires e.valueFrom.value.configMapKeyRef.None? && e.valueFrom.value.secretKeyRef.None?
    requires e.valueFrom.value.fieldRef.None?
    ensures Step(s, e) == s
  {
  }

  /** Each entry changes at most one of the resolved map and the two batches. */
  lemma StepTouchesOnePlace(s: State, e: EnvVar)
    ensures var t := Step(s, e);
      (t.env == s.env && t.pending.secrets == s.pending.secrets)
      || (t.env == s.env && t.pending.configMaps == s.pending.configMaps)
      || t.pending == s.pending
  {
  }

  // ---------------------------------------------------------------------
  // The loop over a container's entries: the resolved map

  /** Entry `i` of `envs` goes to the resolved map under the name `n`. */
  ghost predicate ResolvedAt(envs: seq<EnvVar>, i: int, n: string)
  {
    0 <= i < |envs| && envs[i].name == n && PlaceOf(envs[i]).Resolved?
  }

  /** Later entries overwrite earlier ones: the last entry resolved under `n` gives its value. */
  lemma {:induction false} ClassifyAllLastWins(s: State, envs: seq<EnvVar>, n: string, i: int)
    requires ResolvedAt(envs, i, n)
    requires forall j :: i < j < |envs| ==> !ResolvedAt(envs, j, n)
    ensures n in ClassifyAll(s, envs).env
    ensures ClassifyAll(s, envs).env[n] == PlaceOf(envs[i]).value
    decreases |envs|
  {
    var last := |envs| - 1;
    var prefix := envs[..last];
    if i < last {
      assert ResolvedAt(prefix, i, n);
      forall j | i < j < |prefix|
        ensures !ResolvedAt(prefix, j, n)
      {
        assert prefix[j] == envs[j];
        assert !ResolvedAt(envs, j, n);
      }
      ClassifyAllLastWins(s, prefix, n, i);
      assert !ResolvedAt(envs, last, n);
    }
  }

  /** A name no entry resolves keeps its value from before the loop (or stays absent). */
  lemma {:induction false} ClassifyAllUntouched(s: State, envs: seq<EnvVar>, n: string)
    requires forall j :: 0 <= j < |envs| ==> !ResolvedAt(envs, j, n)
    ensures n in ClassifyAll(s, envs).env <==> n in s.env
    ensures n in s.env ==> ClassifyAll(s, envs).env[n] == s.env[n]
    decreases |envs|
  {
    if envs != [] {
      var last := |envs| - 1;
      var prefix := envs[..last];
      forall j | 0 <= j < |prefix|
        ensures !ResolvedAt(prefix, j, n)
      {
        assert prefix[j] == envs[j];
        assert !ResolvedAt(envs, j, n);
      }
      ClassifyAllUntouched(s, prefix, n);
      assert !ResolvedAt(envs, last, n);
    }
  }

  // ---------------------------------------------------------------------
  // The loop over a container's entries: the batches

  /** The key entry `e` requests from resource `name` of `kind`, if any. */
  function RequestOf(e: EnvVar, kind: Kind, name: string): seq<string>
  {
    match PlaceOf(e)
    case Referenced(k, ref) => if k == kind && ref.name == name then [ref.key] else []
    case _ => []
  }

  /** The keys `envs` requests from resource `name` of `kind`, in order, duplicates kept. */
  function Requests(envs: seq<EnvVar>, kind: Kind, name: string): seq<string>
    decreases |envs|
  {
    if envs == [] then [] else RequestOf(envs[0], kind, name) + Requests(envs[1..], kind, name)
  }

  /** The key entry `j` requests is among the keys the entries request. */
  lemma {:induction false} RequestsHas(envs: seq<EnvVar>, j: nat, kind: Kind, ref: KeySelector)
    requires j < |envs| && PlaceOf(envs[j]) == Referenced(kind, ref)
    ensures ref.key in Requests(envs, kind, ref.name)
    decreases j
  {
    if j > 0 {
      RequestsHas(envs[1..], j - 1, kind, ref);
    }
  }

  lemma {:induction false} RequestsSnoc(envs: seq<EnvVar>, kind: Kind, name: string)
    requires envs != []
    ensures Requests(envs, kind, name)
         == Requests(envs[..|envs| - 1], kind, name) + RequestOf(envs[|envs| - 1], kind, name)
    decreases |envs|
  {
    if |envs| > 1 {
      var tail := envs[1..];
      RequestsSnoc(tail, kind, name);
      assert tail[..|tail| - 1] == envs[..|envs| - 1][1..];
      assert tail[|tail| - 1] == envs[|envs| - 1];
    } else {
      assert envs[..0] == [];
    }
  }

  /** One entry appends what it requests and nothing else. */
  lemma StepRequests(t: State, e: EnvVar, kind: Kind, name: string)
    ensures KeysOf(Step(t, e).pending.Of(kind), name) == KeysOf(t.pending.Of(kind), name) + RequestOf(e, kind, name)
    ensures name in Step(t, e).pending.Of(kind) <==> name in t.pending.Of(kind) || RequestOf(e, kind, name) != []
  {
  }

  /**
   * The loop appends, to the batch of each kind and under each resource
   * name, exactly the keys the entries request, in entry order and with
   * duplicates; a name is in a batch exactly when it was before or some
   * entry requests a key from it.
   */
  lemma {:induction false} ClassifyAllRequests(s: State, envs: seq<EnvVar>, kind: Kind, name: string)
    ensures KeysOf(ClassifyAll(s, envs).pending.Of(kind), name)
         == KeysOf(s.pending.Of(kind), name) + Requests(envs, kind, name)
    ensures name in ClassifyAll(s, envs).pending.Of(kind)
        <==> name in s.pending.Of(kind) || Requests(envs, kind, name) != []
    decreases |envs|
  {
    if envs != [] {
      var last := |envs| - 1;
      ClassifyAllRequests(s, envs[..last], kind, name);
      RequestsSnoc(envs, kind, name);
      StepRequests(ClassifyAll(s, envs[..last]), envs[last], kind, name);
    }
  }

  /** What the loop does to the batches does not depend on the resolved map. */
  lemma {:induction false} PendingIgnoresEnv(e1: map<string, string>, e2: map<string, string>, p: Pending, envs: seq<EnvVar>)
    ensures ClassifyAll(State(e1, p), envs).pending == ClassifyAll(State(e2, p), envs).pending
    decreases |envs|
  {
    if envs != [] {
      PendingIgnoresEnv(e1, e2, p, envs[..|envs| - 1]);
    }
  }

  // ---------------------------------------------------------------------
  // Across containers

  /** One more container: its entries are classified onto the batches so far, whatever the resolved map. */
  lemma PendingAfterStep(cs: seq<Container>, i: nat, start: map<string, string>)
    requires i < |cs|
    ensures PendingAfter(cs[..i + 1]) == ClassifyAll(State(start, PendingAfter(cs[..i])), cs[i].env).pending
  {
    assert cs[..i + 1][..i] == cs[..i];
    PendingIgnoresEnv(start, map[], PendingAfter(cs[..i]), cs[i].env);
  }

  /** The batches only grow: each list of keys after `cs[..i]` is a prefix of the one after `cs`. */
  lemma {:induction false} PendingGrows(cs: seq<Container>, i: nat, kind: Kind, name: string)
    requires i <= |cs|
    ensures KeysOf(PendingAfter(cs[..i]).Of(kind), name) <= KeysOf(PendingAfter(cs).Of(kind), name)
    ensures name in PendingAfter(cs[..i]).Of(kind) ==> name in PendingAfter(cs).Of(kind)
    decreases |cs|
  {
    if i < |cs| {
      var last := |cs| - 1;
      var prefix := cs[..last];
      assert prefix[..i] == cs[..i];
      PendingGrows(prefix, i, kind, name);
      ClassifyAllRequests(State(map[], PendingAfter(prefix)), cs[last].env, kind, name);
    } else {
      assert cs[..i] == cs;
    }
  }

  /**
   * The batches are never reset: when container `i` is resolved, every key
   * that an earlier container `j` requested is requested again.
   */
  lemma EarlierRequestsStayPending(cs: seq<Container>, j: nat, i: nat, kind: Kind, name: string)
    requires j <= i < |cs|
    ensures Requests(cs[j].env, kind, name) != [] ==> name in PendingAfter(cs[..i + 1]).Of(kind)
    ensures forall k :: k in Requests(cs[j].env, kind, name) ==> k in KeysOf(PendingAfter(cs[..i + 1]).Of(kind), name)
  {
    var upto := cs[..i + 1];
    assert upto[..j + 1] == cs[..j + 1];
    assert cs[..j + 1][..j] == cs[..j];
    ClassifyAllRequests(State(map[], PendingAfter(cs[..j])), cs[j].env, kind, name);
    PendingGrows(upto, j + 1, kind, name);
    var before := KeysOf(PendingAfter(cs[..j + 1]).Of(kind), name);
    var after := KeysOf(PendingAfter(upto).Of(kind), name);
    assert before == KeysOf(PendingAfter(cs[..j]).Of(kind), name) + Requests(cs[j].env, kind, name);
    forall k | k in Requests(cs[j].env, kind, name)
      ensures k in after
    {
      var m :| 0 <= m < |Requests(cs[j].env, kind, name)| && Requests(cs[j].env, kind, name)[m] == k;
      var at := |KeysOf(PendingAfter(cs[..j]).Of(kind), name)| + m;
      assert before[at] == k;
      assert after[at] == k;
    }
  }
}
