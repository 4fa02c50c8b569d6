# kubectl-getenv, modelled in Dafny

`kubectl getenv <pod>` prints, for every container of one pod, the
environment that container is declared with, resolved to values:
- literal entries as written, except those whose name starts with
  `KUBERNETES_`;
- field references as their field path;
- config-map and secret references as the value stored in the named
  resource.

The output is one block per container: a `# <name>` heading, then one
`key=value` line per resolved entry (or a "no environment variables"
message), then a blank line.

The model follows `pkg/getenv/getenv.go` closely.

- **Kube** (`kube.dfy`) holds the cluster data the command reads: pods,
  containers and their declared entries, and secret and config-map data,
  per namespace. Each client `Get` call becomes a lookup. A name that is
  absent stands for a call that fails, whatever the reason.
- **Classify** (`classify.dfy`) is the loop over a container's entries as
  pure functions:
  - `PlaceOf` decides where one entry goes;
  - `Step` and `ClassifyAll` update the resolved map and the two reference
    batches;
  - `PendingAfter` gives the batches after a prefix of the pod's
    containers.

  The batches are created once per command and never emptied, so the
  model keeps them across containers, as the code does.
- **Resolve** (`resolve.dfy`) states what `getSecret` and `getConfigMap` do
  to the resolved map. Go visits a map in an unspecified order, so the
  results are relations:
  - `ResolvedBy`: every requested key is written under the key's own name,
    with a value that some resource asking for it supplies;
  - `BatchOutcome`: a lookup fails exactly when some named resource is
    missing, and then the map is the resolution of some subset of the batch
    (which subset depends on the fetch order; `ResolveBatch` pins it down
    as the resources fetched before the failing one).
- **Emit** (`emit.dfy`) describes the output as tokens. The drain of the
  resolved map is the recursive relation `Lists`: the last line printed is
  some entry of the map, and the lines before it drain the rest. From it
  are proved that a drain prints every entry once, in some order, and
  nothing else.
- **GetEnv** (`getenv.dfy`) is the command itself, as the class
  `GetEnvOptions`:
  - the package-level `listOfEnv` is a field that the methods change in
    place;
  - the loops are `while`/`for` loops with invariants, and map iteration
    is a nondeterministic choice (`:|`);
  - each method is proved against the functions above;
  - lemmas state what a finished container prints, using `Printed`, the
    record of the finished containers that `GetEnv` returns.

One might expect the batches to be per container, but the code
declares `configMapEnv` and `secretEnv` once per `GetEnv` call (lines
90-91). A container therefore re-resolves, and prints, every key an
earlier container asked for. The model follows the code.
`ConfigMapKeyPrinted` and `SecretKeyPrinted` state this for any earlier
container. `SharedPodPrintsMode` shows it on a two-container pod.

## Model

| member | source | states |
|---|---|---|
| Kube.DataAt | pkg/getenv/getenv.go:166 | reading a key of a resource's data: the stored value, or the zero value (the empty string) when the key is missing, as `configmap.Data[value]` and `secret.Data[value]` read it (also line 184) |
| Classify.HasPrefix | pkg/getenv/getenv.go:108 | `strings.HasPrefix`: the name starts with the given prefix |
| Classify.HasPrefixPointwise | pkg/getenv/getenv.go:108 | a name has the prefix exactly when the prefix is no longer than the name and agrees with it character by character |
| Classify.PlaceOf | pkg/getenv/getenv.go:103-127 | where one entry goes: a literal (dropped under `KUBERNETES_`) when it has no value source, else the config-map reference, the secret reference or the field path, in that order, else nowhere |
| Classify.KeysOf | pkg/getenv/getenv.go:118 | a batch's key list for a resource, the nil (empty) slice when the resource is not yet in the batch, as `append(configMapEnv[name], ...)` reads it (also line 122) |
| Classify.Step | pkg/getenv/getenv.go:101-129 | one turn of the entry loop: the entry's value is stored under its name, or its reference is appended to its batch, or nothing changes |
| Classify.ClassifyAll | pkg/getenv/getenv.go:101-130 | the whole entry loop of one container, the entries taken in declaration order |
| Classify.PendingAfter | pkg/getenv/getenv.go:90-130 | the batches, created empty once per command (lines 90-91), after the entry loops of the given containers, one after the other |
| Classify.LiteralEntry | pkg/getenv/getenv.go:103-110 | an entry without a value source stores its literal value under its name unless the name starts with `KUBERNETES_`, and then changes nothing; the batches are untouched |
| Classify.FieldRefEntry | pkg/getenv/getenv.go:124-126 | a field reference stores the field path itself (not a live value) under the entry's name, and nothing else changes |
| Classify.ConfigMapRefEntry | pkg/getenv/getenv.go:116-118 | a config-map reference is taken first, whatever else is set, and only appends its key to the config-map batch under the map's name |
| Classify.SecretRefEntry | pkg/getenv/getenv.go:120-122 | a secret reference without a config-map reference only appends its key to the secret batch under the secret's name |
| Classify.EmptySourceEntry | pkg/getenv/getenv.go:114-127 | a value source with none of the three selectors set changes nothing |
| Classify.StepTouchesOnePlace | pkg/getenv/getenv.go:101-130 | each entry changes at most one of the resolved map, the secret batch and the config-map batch |
| Classify.Pending.Add | pkg/getenv/getenv.go:116-122 | `append` to a batch: the other kind's batch is unchanged, the resource name becomes a key of the batch, and exactly its key list gains the new key at the end |
| Classify.ClassifyAllLastWins | pkg/getenv/getenv.go:101-130 | after the loop, a name holds the value of the last entry that resolves it (a later entry overwrites an earlier one) |
| Classify.ClassifyAllUntouched | pkg/getenv/getenv.go:101-130 | a name no entry resolves is present after the loop exactly when it was present before, with the same value |
| Classify.RequestsHas | pkg/getenv/getenv.go:116-122 | the key a reference entry asks for is among the container's requests for that resource |
| Classify.ClassifyAllRequests | pkg/getenv/getenv.go:114-127 | the loop appends to each resource's key list exactly the keys the entries ask for, in entry order with duplicates, and a resource is in a batch exactly when it was before or some entry names it |
| Classify.PendingIgnoresEnv | pkg/getenv/getenv.go:101-130 | what the loop does to the batches does not depend on the resolved map |
| Classify.PendingAfterStep | pkg/getenv/getenv.go:90-130 | the batches after container `i` are container `i`'s classification applied to the batches left by the containers before it |
| Classify.PendingGrows | pkg/getenv/getenv.go:90-130 | across containers the batches only grow: every key list is a prefix of its later value, and no resource name is dropped |
| Classify.EarlierRequestsStayPending | pkg/getenv/getenv.go:90-139 | every key that an earlier container asked for is still queued, under the same resource, when a later container is resolved |
| Resolve.ResolveOneMore | pkg/getenv/getenv.go:159-168 | fetching one more resource of the batch and writing its requested keys extends a partial resolution by that resource |
| Resolve.ResolvedValue | pkg/getenv/getenv.go:164-167 | when all the resources asking for a key agree on it, the key is present after resolution with the data's value for it (empty for a missing key) |
| Resolve.ResolvedUnique | pkg/getenv/getenv.go:159-169 | when no two resources disagree on any requested key, the visiting order does not matter: the resolved map is unique |
| Resolve.ConfigMapsResolvedLast | pkg/getenv/getenv.go:132-139 | with secrets resolved first and config maps second: a key a config map is asked for gets a config-map value, a key only a secret is asked for gets a secret value, and every other entry keeps its classified value |
| Emit.ListsIsPermutation | pkg/getenv/getenv.go:143-148 | a drain of the resolved map prints a permutation of its `key=value` lines |
| Emit.ListsEveryEntry | pkg/getenv/getenv.go:143-148 | a drain prints as many lines as the map has entries, every entry with its value, and nothing else |
| Emit.DrainsArePermutations | pkg/getenv/getenv.go:143-148 | two drains of the same map differ only in order |
| Emit.BlockLines | pkg/getenv/getenv.go:140-150 | a container's block lists each entry of its resolved map with its value and no other entry, is heading, placeholder and blank line when the map is empty, and holds no placeholder when it is not |
| GetEnv.ConfigMapKeyPrinted | pkg/getenv/getenv.go:90-150 | a config-map key asked for by container `i` or by any earlier container is printed in block `i`, under the key's name, with the config map's value, when the queued config maps agree on it |
| GetEnv.SecretKeyPrinted | pkg/getenv/getenv.go:90-150 | a secret key asked for by container `i` or an earlier one, and asked of no queued config map, is printed in block `i` with the secret's value, when the queued secrets agree on it |
| GetEnv.ResolvedEntryPrinted | pkg/getenv/getenv.go:101-150 | the last literal or field entry of a name is printed with its value, unless a queued reference writes that name |
| GetEnv.UnsourcedNotPrinted | pkg/getenv/getenv.go:103-150 | a name that no entry of the container resolves, that no reference writes and that was not left over is not printed; skipped `KUBERNETES_` literals are such names |
| GetEnv.PrintedKeysSourced | pkg/getenv/getenv.go:98-150 | every key printed in a block was left in the map before the container, is resolved by one of its entries, or is asked for by a queued reference |
| GetEnv.EmptyContainerPrintsQueued | pkg/getenv/getenv.go:90-150 | a later container that declares no entries prints only keys that references queued by earlier containers ask for |
| GetEnv.OneQueuedKeyPrinted | pkg/getenv/getenv.go:90-150 | a later container that declares no entries, when the only queued reference is one config-map key, prints nothing but that key |
| GetEnv.EmptyContainerPrintsPlaceholder | pkg/getenv/getenv.go:140-141 | a container that resolves nothing, with no reference queued and nothing left over, prints only its heading, the placeholder and the blank line |
| GetEnv.SharedPodBatches | pkg/getenv/getenv.go:90-130 | for a pod whose first container references one config-map key and whose second declares nothing, that key stays queued after the second container |
| GetEnv.SharedPodPrintsMode | pkg/getenv/getenv.go:90-150 | in that pod, both blocks print the config-map key with its value: the second container prints what only the first asked for |
| GetEnv.SharedPodSidecarOnlyMode | pkg/getenv/getenv.go:90-150 | in that pod, the second block prints no other key |
| GetEnv.NotFetchableLater | pkg/getenv/getenv.go:98-139 | once the queued batches name a missing resource, the batches of the whole pod do too |
| GetEnv.StoppedAt | pkg/getenv/getenv.go:132-139 | a failed lookup in container `i` ends the output after that container's heading, with an error naming a missing queued resource (a secret first, a config map only when all secrets exist) |
| GetEnv.GetEnvOptions.constructor | pkg/getenv/getenv.go:29-34 | a new options object has the given namespace (the `--namespace` flag of line 56), no pod, no arguments, no client, and an empty resolved map (the package-level map made at line 14, as a fresh process has it) |
| GetEnv.GetEnvOptions.Complete | pkg/getenv/getenv.go:61-85 | the arguments are recorded; no argument is an error; otherwise the pod is the first argument, and a configuration or client-building failure is returned as the error, else the client is set |
| GetEnv.GetEnvOptions.ClassifyEnv | pkg/getenv/getenv.go:101-130 | the loop over a container's entries leaves the resolved map and the batches that `ClassifyAll` gives |
| GetEnv.GetEnvOptions.WriteKeys | pkg/getenv/getenv.go:164-167 | writing one fetched resource's requested keys adds each key with the data's value for it and keeps every other entry |
| GetEnv.GetEnvOptions.ResolveBatch | pkg/getenv/getenv.go:159-170 | each resource of the batch is fetched at most once; the call fails exactly when one is missing, and then the failing fetch is the last one made, every fetch before it succeeded and had its keys written, so the map is the resolution of exactly those earlier resources, and the error names the missing one; otherwise every resource is fetched and the whole batch is resolved |
| GetEnv.GetEnvOptions.GetSecret | pkg/getenv/getenv.go:157-171 | the secret batch is resolved against the namespace's secrets, or the error names a missing secret |
| GetEnv.GetEnvOptions.GetConfigMap | pkg/getenv/getenv.go:175-189 | the config-map batch is resolved against the namespace's config maps, or the error names a missing config map |
| GetEnv.GetEnvOptions.Drain | pkg/getenv/getenv.go:140-149 | the map is printed (the placeholder when empty, else a drain of it) and is left empty |
| GetEnv.GetEnvOptions.ProcessContainer | pkg/getenv/getenv.go:98-151 | one container: heading, classification, secrets then config maps, then drain and blank line; it fails exactly when the queued batches name a missing resource, and then prints only the heading |
| GetEnv.GetEnvOptions.GetEnv | pkg/getenv/getenv.go:88-153 | a missing pod is an error with no output; otherwise it succeeds exactly when every resource the whole pod references exists, and prints one block per container in order, stopping after the heading of the first container whose lookup fails |
| GetEnv.GetEnvOptions.Run | pkg/getenv/getenv.go:46-54 | `Complete` then `GetEnv`: the arguments are recorded; the first error is the command's error; when `Complete` fails nothing is printed and the pod name (for want of an argument), the client and the resolved map keep their old values as `Complete` leaves them; a missing pod leaves the resolved map as it was; a successful run leaves the map drained (empty when the pod has a container, unchanged when it has none), which is what a later run starts from |

## Left out

- Command wiring. The cobra command, its help texts and the `IOStreams`
  are not modelled (lines 36-58). The `--namespace` flag is the
  constructor's parameter; its default is "default" (line 56).
- Shared resolved map. In Go, `listOfEnv` is a package-level variable
  (line 14) that every options object shares; the model makes it a field,
  so each `GetEnvOptions` object has its own. This is exact for the one
  object `NewCmdGetenv` builds (line 39).
- Client configuration. Loading the configuration and building the client
  (lines 74-82) call into client-go. The model replaces them by a
  `Connection` value that says which step failed, or gives the cluster.
- Cluster calls. Each API call becomes a lookup in a fixed snapshot of the
  namespace, so the model assumes a resource does not change between two
  fetches of it. Error values keep their kind and the resource name, not Go's message text.
- Secret bytes. Secret data is modelled as strings, which leaves out the
  `string(...)` conversion of bytes (line 166).
- Output formatting. `fmt.Printf` and `fmt.Println` become `Line` tokens,
  not text.
- GetEnv.GetEnvOptions.GetEnv: requires a built client. The source calls it
  only after `Complete` succeeded (lines 47-50), and it would dereference a
  nil client otherwise.
- GetEnv.ConfigMapKeyPrinted, GetEnv.SecretKeyPrinted and
  Resolve.ResolvedValue: these say nothing about which value wins when two
  queued resources supply the same key with different values. That choice
  depends on Go's map order, and `ResolvedBy` only promises a value from one
  of them.
- Partial failures. When a resolver fails, the fetching stops at the
  missing resource, and that resource is the last fetched. The model does
  not say which of the batch's other resources were fetched before it,
  because that depends on map order; those that were have their keys
  written, and their entries stay in the resolved map.
