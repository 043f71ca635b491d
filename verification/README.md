# BuildKit builder operator: a verified model

The operator turns a `BuildkitBuilder` resource into a ConfigMap, two Services, an optional
route with a server certificate, an optional cache claim and a StatefulSet, and writes a status
back. This project models its reconciler as a machine that shares a versioned object store with
other workers and with an environment, and proves what that machine keeps.

## How it is laid out

- `Types`, `Idle`, `Labels`, `Merge`, `Toml`, `TomlTables`, `Certificates`, `Render`, `Conditions`, `Webhook`:
  the values and the functions the reconciler computes with. The imperative parts of the Go
  code (map-filling and appending loops, field-by-field overwriting) are methods here, each proved equal to the function its
  lemmas are about. `BuilderResource` is the in-memory object that the webhook and the status
  writers update in place.
- `Store`: the API server. Every object has a revision; a call is one atomic step that may fail,
  or take effect and lose its reply; reads may be answered from an older world.
- `Pass`: one reconcile pass as a step machine. `Ask` is the request a position makes, `Hear`
  where the reply takes it.
- `Machine`: any number of workers in any interleaving with crashes and with an environment
  that may do whatever `Follows` allows (time and revisions move forward). `Run` folds `Step` over
  a list of labels; theorems quantify over all such lists.
- `Freshness`: what a pass knows of a builder it read since some moment.
- `Versions`, `CaAgreement`, `Sleep`, `ScaleToZero`, `Closure`, `CertLifetime`, `CaLifetime`, `StatusRuns`,
  `Defaulting`: theorems about runs, one subject each.
- `Convergence`, `Repair`, `Fixpoint`: an undisturbed pass repairs anything, ends, and a second one rests.
- `Delivered`: what an undisturbed pass leaves in the store, in literal names and values.
- `Reconciler`: class `Worker` with the methods of the Go code in their own shape. Every
  call it makes is a step of the machine, preceded by arbitrary steps of everybody else, so each
  execution of `Reconcile` is a run, and the theorems about runs are theorems about it.
- `Boot`: the first system of a fresh operator satisfies what the theorems assume.

The fields `since` and `at` of a pass record the clock at a read or a decision. They appear in
statements only; nothing the operator sends depends on them. Of the clock readings `now`, only
those the Go code makes reach an object.

## What each theorem assumes of the world

- CA agreement: nobody but the operator writes or deletes the CA. For the issue of server Secrets by
  it, nobody else writes these either (they may be deleted). Workers, faults, crashes, stale reads:
  unrestricted.
- Conditions of others in the status: the environment keeps the builder, and does not move or drop
  conditions itself. Workers, faults, stale reads: unrestricted.
- No lost update, cluster IPs, cache claims, interference: nothing of the workers; the environment
  must not itself readdress the Service or delete the claim in question.
- Sleep and reference closure: one pass at a time per builder (the work queue), and nobody else
  rescales the StatefulSet or deletes the children; closure also needs the server Secret read fresh.
- Scale-to-zero: the same, from the last change of annotation, timeout or mode on, with builders read
  no staler than that change. History, stored count and passes still under way are arbitrary.
- Certificate lifetime: one pass at a time, from the moment the builder is exposed on, with the builder
  read no staler than that and the server Secret read fresh; nobody else touches the Secret. History,
  store and passes still under way are arbitrary. A certificate that is merely kept counts as a
  success when its window has begun, which the renewal test itself does not ask.
- Convergence: the pass is undisturbed. Its own calls, signing included, succeed and read fresh, and nobody else
  touches the builder, its children or its templates; the rest of the store is free. Passes of other
  builders satisfy this by themselves, unless their Service names coincide.

## Where code and prose differ

- The repository's README.md (line 53) says the builder is scaled down when idle for more than the timeout;
  internal/controller/buildkitbuilder_controller.go:274 sleeps at equality already
  (`Idle.DecisionMeaning`).
- The comment at internal/controller/buildkitbuilder_controller.go:227 speaks of "no active builds"; the code does not look
  at builds.
- A sleepy builder can be Ready without an endpoint (`StatusRuns.SleepyReadyMayLackEndpoint`).
- User labels can overwrite the reserved name label. That hides a builder's pods from its own endpoint
  query (`Labels.EndpointQueryFindsOwnPods` says exactly when), and makes them another builder's:
  a builder labelled with the name of another has its pods listed and reported as that one's
  (`StatusRuns.EndpointMayBeAnothers`, and `Labels.NameQueryFinds` for the exact condition), and
  may have them selected by that one's Services (`Render.ServicesReach`).
- A user text that declares the grpc table without a tcp address ends up declaring it twice, which
  TOML forbids (`TomlTables.InjectionDeclaresTables` says exactly when). Top-level keys of a text without
  a tcp address end up under the grpc table (`TomlTables.TopLevelLinesFallUnderGrpc`).
- A user text that mentions `[grpc.tls]`, be it in a comment, gets no TLS section from the operator,
  although the Secret is mounted (`Toml.TlsIsInjectedExactly`, `Toml.CommentSuppressesTls`).
- The renewal test ignores the beginning of the validity window (`CertLifetime.FutureCertificateIsKept`).
- Validation rejects a template reference to the empty name; the reconciler does not
  (`Defaulting.ChecksAgreeWithValidation`).
- References of a StatefulSet are closed when it is written, not at every instant
  (`Closure.DroppingCertOpensReference`).
- The CA is never renewed: from 3650 days after its issue on, certificates are renewed and valid and
  chain to nothing (`CaLifetime.ChainHoldsForTenYears`, `Certificates.SignedAfterCaExpiry`). And a certificate signed by an
  exchanged CA stays until it is due (`CaAgreement.ExchangedCaIsNoticedOnlyAtRenewal`).
- LastTransitionTime is rewritten on every status write, so a second pass rests only up to timestamps
  (`Fixpoint.SecondPassKeepsStatus`).
- Two builders named `x` and `x-client` share a Service (`Render.ChildrenAreDisjoint`).

## Model

| member | source | states |
|---|---|---|
| Idle.IdleTestIsExact | internal/controller/buildkitbuilder_controller.go:274 | Go's saturating `time.Since` and wrapping `Duration(idle)*time.Second` never change the outcome: for every int32 timeout, negative ones included, and every two instants the test is exactly `now < lastUsed + timeout` over the integers |
| Idle.TimeoutDoesNotOverflow | internal/controller/buildkitbuilder_controller.go:238-241 | the int64 product of any int32 timeout and a second is exact |
| Idle.DecisionMeaning | internal/controller/buildkitbuilder_controller.go:238-282 | the decision is 0 or 1: 1 without an annotation, 0 with an unreadable one, and otherwise 1 exactly strictly before last use plus the builder's own timeout in seconds, 300 unless it sets one; at equality the builder sleeps |
| Idle.DeadlineMeaning | internal/controller/buildkitbuilder_controller.go:238-241 | the deadline of a sleepy builder in the fields of its spec |
| Idle.DecisionNeverRises | internal/controller/buildkitbuilder_controller.go:268-282 | with the annotation fixed, a later clock never wakes the builder up |
| Labels.PatternMeaning | internal/controller/buildkitbuilder_controller.go:323 | the label pattern, read as a regular expression, accepts exactly the empty string and the strings of letters, digits, dash, underscore and dot with a letter or digit at both ends; so does the recogniser |
| Labels.LabelsForBuilder | internal/controller/buildkitbuilder_controller.go:325-337 | the loop, in whatever order it visits user labels, computes the reserved pair overlaid with the accepted user labels |
| Labels.LabelMapMeaning | internal/controller/buildkitbuilder_controller.go:325-337 | every label is a reserved pair or an accepted user label, and accepted user labels win, over reserved keys too |
| Labels.EndpointQueryFindsOwnPods | internal/controller/helpers.go:192-197 | the endpoint query matches the pods the operator renders if and only if no accepted user label puts another value under the name key |
| Labels.NameQueryFinds | internal/controller/helpers.go:192-197 | a query by name matches the pods of exactly those builders whose name label has that value, whatever they are named |
| Labels.SelectorFinds | internal/controller/buildkitbuilder_controller.go:325-337 | the label map of one builder, as a selector, matches the pods of another if and only if name label, mode label and all other accepted labels of the first agree |
| Merge.MergeSpec | internal/controller/buildkitbuilder_controller.go:116-150 | the field-by-field overwriting computes the merge the laws below are about |
| Merge.MergeIsAssociative | internal/controller/buildkitbuilder_controller.go:116-150 | merging overrides is associative |
| Merge.MergeLaws | internal/controller/buildkitbuilder_controller.go:116-150 | merging is idempotent, absorbs a repeated override, has the missing override as right identity, and always takes Rootless from the override |
| Merge.FoldTakesLastSetter | internal/controller/buildkitbuilder_controller.go:116-150 | folding any list of overrides takes every field from the last layer that sets it |
| Toml.RenderToml | internal/controller/buildkitbuilder_controller.go:488-501 | the successive rewrites of the text compute the configuration the lemmas below are about |
| Toml.RenderedMeaning | internal/controller/buildkitbuilder_controller.go:488-501 | for every user text the result contains a tcp address, contains the TLS section whenever the builder is exposed, and keeps the user's text as one substring |
| Toml.RenderingIsIdempotent | internal/controller/buildkitbuilder_controller.go:488-501 | injecting into an already injected text changes nothing |
| Toml.TlsBlockNamesFiles | internal/controller/buildkitbuilder_controller.go:499-501 | the injected section names certificate, key and CA file under the TLS mount |
| Toml.TlsIsInjectedExactly | internal/controller/buildkitbuilder_controller.go:496-501 | the operator's TLS section is appended exactly when the user's text is empty or does not contain its header, and nothing else is |
| Toml.ConfigurationNamesFiles | internal/controller/buildkitbuilder_controller.go:496-501 | then the generated configuration names certificate, key and CA file under the mount |
| Toml.CommentSuppressesTls | internal/controller/buildkitbuilder_controller.go:499 | the failing input: a comment that mentions the section suppresses it, and no mounted file is named |
| TomlTables.InjectionDeclaresTables | internal/controller/buildkitbuilder_controller.go:493-501 | injection declares the grpc table a second time exactly when a line of the text opens it, blanks, comments and carriage returns allowed, and the text names no tcp address; otherwise it adds no second declaration |
| TomlTables.LoneHeaderIsDeclaredTwice | internal/controller/buildkitbuilder_controller.go:493-495 | any header line that is all the user writes ends up declared twice |
| TomlTables.TopLevelLinesFallUnderGrpc | internal/controller/buildkitbuilder_controller.go:493-495 | lines before the first table of a text without a tcp address stand at top level in it, and under the grpc table in the result |
| TomlTables.BareHeaderIsDeclaredTwice | internal/controller/buildkitbuilder_controller.go:493-495 | the bare header as user text ends up declared twice |
| TomlTables.DefaultIsWellDeclared | internal/controller/buildkitbuilder_controller.go:474-501 | the default text ends up with one declaration |
| Certificates.FreshCertificateIsKept | internal/controller/tls.go:167-176 | a certificate just signed is not renewed for the next 335 days, less a second lost to truncation |
| Certificates.ServerCertificateIs | internal/controller/tls.go:208-231 | a server certificate is an end-entity certificate of the CA for the host, from five minutes ago for 365 days in whole seconds; its Secret holds CA, certificate and key |
| Certificates.CaCertificateIs | internal/controller/tls.go:178-206 | a CA is self-signed, from five minutes ago for 3650 days in whole seconds; its Secret holds certificate and key |
| Certificates.ReadCaMeaning | internal/controller/tls.go:233-251 | a CA Secret is read exactly when certificate and key parse, and yields what they say, also when they do not belong together |
| CertLifetime.RenewalMeaning | internal/controller/tls.go:119-151 | what a renewal stores for a builder, field by field |
| CertLifetime.SigningMeaning | internal/controller/tls.go:119-155 | a signed certificate is stored as a new Secret with the host as its only annotation, or over the one that was read, whose other annotations stay |
| Certificates.NestingIsExact | internal/controller/tls.go:190-221 | the server window lies inside the CA window if and only if the certificate is issued, in whole seconds, no later than CA expiry minus 365 days |
| Certificates.ChainValidWhileCaLasts | internal/controller/tls.go:178-231 | from issue on, CA and server certificate form a valid chain exactly until the earlier of their expiries |
| Certificates.SignedAfterCaExpiry | internal/controller/tls.go:208-231 | a certificate signed after the CA expired is valid by itself and never in a chain |
| Render.ChildrenAreDisjoint | internal/controller/helpers.go:22-55 | two builders of a namespace share a child object if and only if one is named like the other plus `-client` |
| Render.ChildrenAreNotTheCa | internal/controller/tls.go:27-41 | no builder's child, whatever its name, is the namespace CA Secret |
| Render.ClaimMeaning | internal/controller/helpers.go:58-83 | the claim has what the template says; an empty list of access modes becomes ReadWriteOnce, an empty size 100Gi, an empty storage class is left open |
| Render.RouteMeaning | internal/controller/ingress.go:31-95 | the route takes TLS for the builder's host on the entry point named, or websecure, passes it through to the Service governing the StatefulSet, announces the host unless the caller overrides that, and keeps the caller's annotations |
| Render.BuildRoute | internal/controller/ingress.go:50-95 | the annotation loop, in any order, computes the rendered route: hostname annotation overlaid with the caller's |
| Render.BuildPodSpec | internal/controller/buildkitbuilder_controller.go:339-472 | the appending of volumes and mounts computes the pod of the lemmas below |
| Render.PodIsWellFormed | internal/controller/buildkitbuilder_controller.go:367-433 | volume names and mount paths are pairwise distinct, and every mount names a declared volume, one to one |
| Render.ConfigurationAgreesWithPod | internal/controller/buildkitbuilder_controller.go:383-501 | for an exposed builder the Secret is mounted and a signed one holds all files; the generated configuration carries the operator's TLS section, and then names these files under that mount, if and only if the user's text does not mention a TLS section |
| Render.BuildkitdFindsItsConfig | internal/controller/buildkitbuilder_controller.go:340-381 | the configuration path in the arguments is the file of the builder's own ConfigMap under its mount |
| Render.RootlessMeaning | internal/controller/buildkitbuilder_controller.go:345-410 | the rootless flag is passed exactly to rootless builders, and the cache is mounted where such a builder keeps it |
| Render.NodeSelectorMeaning | internal/controller/buildkitbuilder_controller.go:359-365 | the selector holds the template's pairs, and the architecture unless the template names one itself |
| Render.BuildStatefulSet | internal/controller/helpers.go:102-131 | renders the StatefulSet of the specification |
| Render.StatefulSetReferences | internal/controller/helpers.go:102-131 | a rendered StatefulSet refers to its own ConfigMap and headless Service always, to its server Secret exactly when exposure is enabled, and to its own claim exactly when the cache type is pvc with a PVC config |
| Render.CacheAndCredentials | internal/controller/buildkitbuilder_controller.go:394-433 | the cache is on the claim or else on an empty directory, and credentials are projected exactly for an S3 cache that names them |
| Render.SelectorsMatchPods | internal/controller/helpers.go:22-55 | both Services and the StatefulSet select every pod the StatefulSet makes; the endpoint query does exactly when user labels leave the name alone |
| Render.ServicesReach | internal/controller/helpers.go:22-55 | the Services of one builder select the pods of another if and only if their name and mode labels and the other labels of the first agree |
| BuilderResource.Resource.SetStatusCondition | internal/controller/helpers.go:259-283 | the in-place loop overwrites the first condition of the kind or appends one |
| BuilderResource.Resource.RecordStatus | internal/controller/helpers.go:211-229 | the in-memory part of the status update yields the persistent status |
| BuilderResource.Resource.RecordScaledStatus | internal/controller/helpers.go:237-252 | the in-memory part of the scaled status update yields the sleepy status |
| BuilderResource.Resource.Default | api/v1alpha1/buildkitbuilder_webhook.go:25-37 | the in-place defaults yield the defaulted builder |
| BuilderResource.Resource.DefaultExposure | api/v1alpha1/buildkitbuilder_webhook.go:39-50 | the in-place exposure defaults, for an enabled exposure only |
| Conditions.SetConditionMeaning | internal/controller/helpers.go:259-283 | the named condition takes the value, and condition types stay unique |
| Conditions.OtherConditionsKept | internal/controller/helpers.go:259-283 | every other condition keeps content and position, and none appears or disappears |
| Conditions.PersistentStatusIsOk | internal/controller/helpers.go:211-229 | writing a persistent status keeps types unique, makes Ready true exactly in phase Ready, Endpoint true exactly with an endpoint, and leaves LastScaled as true or not as it was |
| Conditions.SleepyStatusIsOk | internal/controller/helpers.go:237-252 | writing a sleepy status keeps types unique, makes Ready true exactly in phase Ready, sets LastScaled, and leaves Endpoint as true or not as it was |
| Conditions.SetConditionEndures | internal/controller/helpers.go:259-283 | setting one condition keeps every position and the whole content of every other condition |
| Conditions.TwoConditionsAgain | internal/controller/helpers.go:259-283 | setting two conditions a second time moves only their timestamps |
| Machine.PassWritesItsOwn | internal/controller/buildkitbuilder_controller.go:61-316 | everything a pass writes or deletes is its builder's status, one of its children, or a CA it creates |
| Machine.PassReadsItsOwn | internal/controller/buildkitbuilder_controller.go:61-316 | everything a pass gets is its builder, a template, the CA of the namespace or one of its own children; its listing finds the pods of every builder that carries its name as name label |
| Store.ListingMeaning | internal/controller/helpers.go:192-197 | a listing by label returns exactly the pods of the namespace that carry the label with that value |
| Machine.PassesDoNotInterfere | internal/controller/buildkitbuilder_controller.go:61-316 | under any step of any worker, another builder's status and children are untouched unless the `-client` names coincide |
| Machine.CaSurvives | internal/controller/tls.go:159-165 | no pass ever deletes or replaces a stored CA |
| Machine.PassKeepsJob | internal/controller/buildkitbuilder_controller.go:61-94 | a pass works from one builder, one revision and one resolved template from beginning to end |
| Versions.SaneAlways | internal/controller/helpers.go:134-174 | along every run, with any interleaving, fault and stale read: revisions name objects for all time, and everything a worker holds was once stored |
| Versions.RevisionMeansUntouched | internal/controller/helpers.go:143-145 | while a key shows a revision that was read, it has held nothing else in between |
| Versions.NoLostUpdate | internal/controller/helpers.go:134-174 | every conditional write, of Service, StatefulSet, route, ConfigMap, server Secret or status, either changes nothing or replaces exactly the object its worker had read |
| Versions.ClusterIpNeverChanges | internal/controller/helpers.go:143-145 | a Service's assigned cluster IP survives every pass of every worker, along any run |
| CaAgreement.WorkersAgreeOnCa | internal/controller/tls.go:52-93 | for any number of workers with faults, crashes and stale reads, as long as nobody else edits the CA: at most one CA is ever stored in a namespace, and every pass past `ensureNamespaceCA` holds it, whatever others do to server Secrets |
| CaAgreement.SecretsChainToCa | internal/controller/tls.go:98-156 | if nobody else writes server Secrets either, every one along the run carries that CA, is signed by its key and names its host |
| CaAgreement.StepAgrees | internal/controller/tls.go:52-156 | one step of any worker or of the environment keeps that agreement |
| CaAgreement.UntouchedIsAgreed | internal/controller/tls.go:62-77 | a namespace nobody has worked in satisfies it |
| CaAgreement.WorkerLearns | internal/controller/tls.go:52-93 | what a worker hears, the lost race included, leaves it with the stored CA |
| CaAgreement.RenewalKeepsAnnotations | internal/controller/tls.go:147-151 | a renewal changes no annotation but the host's |
| CaAgreement.ExchangedCaIsNoticedOnlyAtRenewal | internal/controller/tls.go:109-117 | why outside edits are excluded: with an exchanged CA, a certificate pass leaves disagreement in place exactly when the old certificate is not due |
| Sleep.FaithfulAlways | internal/controller/buildkitbuilder_controller.go:268-312 | along every run in which the StatefulSet is left to the operator, the count a sleepy pass is about to write or has written is the decision on the builder it read at an instant inside the pass, and the stored StatefulSet has it |
| Sleep.CommittedSleepIsCurrent | internal/controller/buildkitbuilder_controller.go:306-312 | whenever a sleepy status write takes effect, acknowledged or not, the builder is still the one that was read, and the reported count is the decision on it and the stored StatefulSet's count |
| Sleep.PatchDefeatsStatusWrite | internal/controller/helpers.go:253-255 | any edit of the builder that lands after the read, the last-used patch included, makes the status write fail and leaves the builder as it is |
| Sleep.NeverSleepsEarly | internal/controller/buildkitbuilder_controller.go:268-290 | zero replicas are stored only over an unreadable annotation or one at least the timeout old |
| ScaleToZero.TracksAlways | internal/controller/buildkitbuilder_controller.go:268-290 | from the last change of annotation, timeout or mode on, over any history and any stored count, the StatefulSet carries the last decision stored since, and decisions only get later |
| ScaleToZero.ScaleToZeroBounds | internal/controller/buildkitbuilder_controller.go:229-316 | from that change on, once a pass has stored a decision and as long as it is at most a gap old: awake before last use plus timeout, asleep from that instant plus the gap on |
| ScaleToZero.PassBoundsScale | internal/controller/buildkitbuilder_controller.go:229-316 | the same in terms of passes: it holds whenever a pass that began at most a gap ago has got past its StatefulSet, so a patched annotation wakes the builder and an old one puts it to sleep |
| ScaleToZero.PassRenewsDecision | internal/controller/buildkitbuilder_controller.go:268-290 | a sleepy pass past its StatefulSet leaves a decision no older than its own beginning |
| ScaleToZero.AsleepStaysAsleep | internal/controller/buildkitbuilder_controller.go:268-290 | once a decision has put the builder to sleep it stays asleep until annotation, timeout or mode change |
| Freshness.HeldStep | internal/controller/buildkitbuilder_controller.go:61-66 | a builder read since some moment has whatever property, status apart, the stored one has had since then |
| Closure.ReferenceClosure | internal/controller/buildkitbuilder_controller.go:162-208 | whenever a StatefulSet is written, and until the pass that wrote it ends, its ConfigMap, headless Service and server Secret are in the store, so is its claim whenever the cache type is pvc with a PVC config, and exactly then it mounts that claim |
| Closure.DroppingCertOpensReference | internal/controller/ingress.go:97-103 | closure does not hold at every instant: turning exposure off deletes the Secret first, and the references stay closed exactly when the StatefulSet does not mount it |
| Closure.NoCacheLoss | internal/controller/helpers.go:148-160 | over every run, through mode switches, exposure toggles and scalings, no step changes or deletes an existing claim |
| Closure.ProvidedAlways | internal/controller/buildkitbuilder_controller.go:162-208 | along every orderly run a pass finds in the store everything its position counts as provided |
| Repair.RankFalls | internal/controller/buildkitbuilder_controller.go:61-316 | no pass loops: whatever it hears, it has fewer steps left, 40 at most |
| Convergence.OwnStepProgresses | internal/controller/buildkitbuilder_controller.go:162-316 | from any store, every undisturbed step of a pass brings one more child to its render and keeps the ones before it |
| Convergence.ProgressStays | internal/controller/buildkitbuilder_controller.go:162-316 | steps that leave the builder's objects alone leave that progress alone, time passing included |
| Convergence.WriteSettles | internal/controller/helpers.go:134-174 | an undisturbed create or update leaves the child at its render, with address and port of the start kept |
| Repair.CompletePassConverges | internal/controller/buildkitbuilder_controller.go:61-316 | crash convergence: from any store whatsoever, an undisturbed pass that ends well leaves every child at the render of builder, template and clock, keeping addresses, claim and a certificate not due, and stores the status it reports |
| Delivered.PassDelivers | internal/controller/buildkitbuilder_controller.go:61-316 | from any store, an undisturbed pass that ends well leaves, for the builder it found and the spec its templates resolve to, exactly the ConfigMap text, Services, route, certificate, claim, StatefulSet, replica count and status spelled out there in literal names and values |
| Delivered.ResolvedIs | internal/controller/buildkitbuilder_controller.go:97-150 | the spec of a pass takes every field from the inline template where that sets it, else from the named template in the store, else it is empty |
| Delivered.ResolveMeaning | internal/controller/buildkitbuilder_controller.go:70-94 | a pass fails without any template, ends for a builder being deleted, fails for an unknown mode, and otherwise goes on to the ConfigMap |
| Delivered.ConfigMapDelivered | internal/controller/buildkitbuilder_controller.go:488-524 | the stored configuration is the user's text or the default, with the listener before it and the TLS section after it exactly where they are missing |
| Delivered.WorkloadDelivered | internal/controller/helpers.go:102-131 | the stored StatefulSet has the image, resources, arguments, selector, labels, volumes and mounts of the resolved spec and the builder |
| Delivered.ClaimDelivered | internal/controller/helpers.go:58-83 | a claim that was there is untouched, and one is made exactly when the cache type is pvc with a PVC config, with that config or the defaults |
| Delivered.CountDelivered | internal/controller/buildkitbuilder_controller.go:175-178 | the stored replica count is the builder's own, 1 unless it says otherwise, when persistent, and the decision at an instant of the pass when sleepy |
| Delivered.StatusDelivered | internal/controller/helpers.go:211-257 | the stored status says what was delivered: count, phase, external endpoint, Secret name and node port |
| Toml.DefaultTomlIs | internal/controller/buildkitbuilder_controller.go:474-485 | the default configuration, character by character |
| Toml.ListenerBlockIs | internal/controller/buildkitbuilder_controller.go:493-495 | the prepended listener, character by character |
| Toml.TlsBlockIs | internal/controller/buildkitbuilder_controller.go:499-501 | the appended TLS section, character by character |
| Machine.RefusalsEndPass | internal/controller/buildkitbuilder_controller.go:61-316 | any refused call ends the pass with that error, but for exactly these: an absent builder, child, CA or server Secret, an absent object to delete, a CA or server Secret that exists already, and the port lookup |
| Repair.RepairCompletes | internal/controller/buildkitbuilder_controller.go:61-316 | and over a validated live builder whose template exists, in a namespace with an agreed CA that only the operator edits, an undisturbed pass, its signing succeeding too, never fails and ends so within 40 of its own steps |
| Repair.OtherPassesAreCalm | internal/controller/buildkitbuilder_controller.go:61-316 | passes over other builders never disturb it, unless one of the two names is the other plus `-client` |
| Repair.HostsAgree | internal/controller/ingress.go:38-116 | after an undisturbed pass that reports, over any store with an agreed CA, one host is in the certificate's annotation and subject name, the route's SNI rule and the external endpoint; for an unexposed builder no route, Secret or status field is left |
| Repair.ServicesArePublished | internal/controller/helpers.go:22-55 | after an undisturbed pass that reports both Services exist, the client one with a node port that the status shows, the headless one without an address of its own unless found with one |
| Repair.SecondPassChangesNothing | internal/controller/buildkitbuilder_controller.go:162-316 | two passes that converge on the same builder, template and count leave the same children |
| Repair.SecondReportChangesOnlyTimes | internal/controller/helpers.go:211-283 | recording the same report over its own status moves timestamps and nothing else |
| Fixpoint.SecondPassKeepsChildren | internal/controller/buildkitbuilder_controller.go:162-316 | of two undisturbed passes in a row the second changes no child, unless the scaling decision turns or the certificate comes due in between |
| Fixpoint.SecondPassKeepsStatus | internal/controller/helpers.go:211-283 | and changes only timestamps of the status when it finds the same pods, and nothing when it only waits |
| Fixpoint.AtOneInstant | internal/controller/buildkitbuilder_controller.go:162-316 | at one clock reading both exceptions are impossible, so the second pass changes no child at all |
| Fixpoint.BothConverge | internal/controller/buildkitbuilder_controller.go:97-114 | both passes work from the same resolved spec: the first leaves builder and template alone but for the status |
| CertLifetime.CoveredAlways | internal/controller/tls.go:112-156 | from the moment a builder is exposed on, over any store, the stored certificate was good for 30 days at the last successful certificate pass since, once there is one |
| CertLifetime.FirstCertificateCovers | internal/controller/tls.go:119-146 | the first certificate the operator stores for an exposed builder, over any store, covers it from the instant it was signed |
| CertLifetime.CertificateNeverLapses | internal/controller/tls.go:112-176 | with successful certificate passes at most 30 days apart, the stored certificate of an exposed builder is inside its validity window at every point of the run from the first of them on |
| CertLifetime.PassKeepsCertificateValid | internal/controller/tls.go:98-156 | the same in terms of passes: it is inside its window whenever a pass that began at most 30 days ago has got past its certificate |
| CertLifetime.SignedStep | internal/controller/tls.go:98-165 | in every run whatsoever, only exposed builders get certificates, only unexposed ones lose them, and a Secret about to be stored was good for 30 days when signed |
| CaLifetime.ChainHoldsForTenYears | internal/controller/tls.go:178-231 | within 30 days of the last successful certificate pass the stored certificate is valid, and it chains to the stored CA exactly until 3650 days after the instant at which the operator issued that CA, in whole seconds; after it certificates are still renewed and valid, and no chain is |
| CaLifetime.DatedAlways | internal/controller/tls.go:52-93 | along every run in which only the operator edits the CA, the stored CA and every candidate for it was generated by the operator at an instant of the run |
| CertLifetime.FutureCertificateIsKept | internal/controller/tls.go:167-176 | the renewal test ignores the beginning of the window: a certificate that is kept would be kept with any beginning, also before it is valid |
| StatusRuns.StatusInvariant | internal/controller/helpers.go:211-283 | along every run and under any mix of both writers, condition types stay unique and Ready is True exactly in phase Ready |
| StatusRuns.EndpointMeaning | internal/controller/helpers.go:192-208 | the endpoint is port 1234 of the first listed pod that is running and has an IP, and empty exactly when there is none; the count is the number of such pods |
| StatusRuns.ReadyEndpointsAreReal | internal/controller/buildkitbuilder_controller.go:210-219 | as long as a builder is persistent, a stored Ready names port 1234 of the first pod of the namespace that carried its name and was running with an IP in some world of the run, and counts these pods |
| StatusRuns.SleepyReadyMayLackEndpoint | internal/controller/buildkitbuilder_controller.go:292-306 | a sleepy builder is reported Ready also without a running pod, and then with an empty endpoint; a persistent one waits instead |
| StatusRuns.StatusFields | internal/controller/helpers.go:211-257 | a stored status says what the pass found, names endpoint and Secret of an exposed builder, and only the sleepy writer moves LastScaledAt |
| StatusRuns.StatusConditions | internal/controller/helpers.go:211-283 | Ready is True exactly in phase Ready; Endpoint is True exactly with an endpoint in the persistent writer, and as True or not as before in the sleepy one; LastScaled is set by the sleepy writer only |
| StatusRuns.ConditionTextsMeaning | internal/controller/helpers.go:211-283 | status, reason, message and time of the conditions a status write sets, word for word |
| StatusRuns.ReportMeaning | internal/controller/buildkitbuilder_controller.go:292-312 | a sleepy report carries the clock it was made at, and one of a sleeping builder no endpoint |
| StatusRuns.OtherConditionsEndure | internal/controller/helpers.go:211-283 | a status write keeps every condition in its place, and status, reason, message and time of every condition it does not set |
| StatusRuns.OtherConditionsNeverLost | internal/controller/helpers.go:211-283 | over every run, with any workers, stale reads and faults, a condition of another type than the operator's three is never moved, changed or dropped, and the three keep their places |
| StatusRuns.EndpointMayBeAnothers | internal/controller/helpers.go:192-208 | a pod of a builder whose user labels carry another builder's name is listed and reported as that builder's |
| Webhook.DefaultingIsStable | api/v1alpha1/buildkitbuilder_webhook.go:25-101 | defaulting twice is defaulting once, and it never changes the verdict of validation |
| Webhook.DefaultsAre | api/v1alpha1/buildkitbuilder_webhook.go:25-50 | which defaults are set, to which values, and that nothing else of the spec changes |
| Webhook.ValidMeaning | api/v1alpha1/buildkitbuilder_webhook.go:74-101 | a spec is valid exactly with a template, no empty reference, and a host and a supported controller when exposed; which complaint means what |
| Defaulting.DefaultingIsTransparent | api/v1alpha1/buildkitbuilder_webhook.go:25-50 | with the same answers a pass over a builder and one over its defaulted form make the same requests, so they write the same children and status |
| Defaulting.ValidatedFailsOnlyExternally | api/v1alpha1/buildkitbuilder_webhook.go:74-101 | a whole pass over a validated builder of a known mode, whatever it is answered, returns an error only from the store, from making a key or certificate (which may refuse the host) or from an unreadable CA; a claim size that does not parse panics in the code and is not modelled |
| Defaulting.ChecksAgreeWithValidation | internal/controller/buildkitbuilder_controller.go:99-113 | validation rejects exactly what the reconciler's own checks reject, and in addition a template reference to the empty name, which the reconciler goes on to read |
| Reconciler.Worker.Call | internal/controller/buildkitbuilder_controller.go:61-94 | one API call is one step of the machine, after any foreign steps |
| Reconciler.Worker.EnsureBuildkitdConfigMap | internal/controller/buildkitbuilder_controller.go:488-524 | takes the machine from the ConfigMap to the headless Service, or to the error |
| Reconciler.Worker.CreateOrUpdateService | internal/controller/helpers.go:134-146 | get, then create, or update with revision and cluster IP as read |
| Reconciler.Worker.CreateOrUpdatePvc | internal/controller/helpers.go:149-160 | get, then create; an existing claim is left alone |
| Reconciler.Worker.CreateOrUpdateStatefulSet | internal/controller/helpers.go:163-174 | get, then create, or update with the revision as read |
| Reconciler.Worker.CreateOrUpdateIngressRoute | internal/controller/ingress.go:118-130 | get, then create, or update with the revision as read |
| Reconciler.Worker.EnsureNamespaceCa | internal/controller/tls.go:52-93 | where only the operator edits the CA, returns the CA that is in the store when it returns, also after a lost race, for any script of faults, stale reads and other workers; everywhere, follows the machine |
| Reconciler.Worker.EnsureBuilderServerCert | internal/controller/tls.go:98-156 | takes the machine through the CA and the server Secret to the route, or to the error |
| Reconciler.Worker.StoreServerSecret | internal/controller/tls.go:119-155 | signs and creates, tolerating an existing Secret, or updates data and host annotation of the one read |
| Reconciler.Worker.DeleteIngressRouteIfExists | internal/controller/ingress.go:132-142 | deletes; an absent route is fine |
| Reconciler.Worker.DeleteBuilderServerCert | internal/controller/tls.go:159-165 | deletes; an absent Secret is fine |
| Reconciler.Worker.ReconcileExposure | internal/controller/ingress.go:97-116 | removal when not exposed; otherwise checks, certificate, route |
| Reconciler.Worker.CountReady | internal/controller/helpers.go:199-207 | the counting loop computes the endpoint and count of the lemmas about them |
| Reconciler.Worker.ResolveNodePort | internal/controller/helpers.go:177-189 | any failure reads as port 0 |
| Reconciler.Worker.UpdateStatus | internal/controller/helpers.go:211-257 | records the report in memory and writes it under the revision that was read |
| Reconciler.Worker.DecideReplicas | internal/controller/buildkitbuilder_controller.go:268-282 | the branches compute the decision at the clock they read |
| Reconciler.Worker.ResolveSpec | internal/controller/buildkitbuilder_controller.go:97-114 | reads the template if one is named and lays the inline one over it |
| Reconciler.Worker.ReconcilePersistent | internal/controller/buildkitbuilder_controller.go:162-220 | follows the machine from the ConfigMap to the end of a persistent pass |
| Reconciler.Worker.ReconcileSleepy | internal/controller/buildkitbuilder_controller.go:229-316 | follows the machine from the ConfigMap to the end of a sleepy pass |
| Reconciler.Worker.Reconcile | internal/controller/buildkitbuilder_controller.go:61-94 | for every script of interference the execution is a run of the machine that ends where the result says; when nothing disturbs it, a good end means convergence, and a repairable builder in an agreed namespace always gets one |
| Boot.StartedIsSane | internal/controller/buildkitbuilder_controller.go:61-94 | an operator started over any store satisfies what the run theorems assume of their first system |
| Boot.StartedIsAgreed | internal/controller/tls.go:52-93 | in a namespace with a readable CA that has issued all its server Secrets, or with neither, it satisfies CA agreement |
| Boot.StartedIsDated | internal/controller/tls.go:62-77 | in a namespace without a CA it satisfies the hypothesis on the CA of the chain theorem |
| Boot.StartedTracks | internal/controller/buildkitbuilder_controller.go:268-290 | over any store with a sleepy builder, whatever the StatefulSet says, it satisfies the hypothesis of the scale-to-zero bounds |
| Boot.StartedIsCovered | internal/controller/tls.go:98-156 | over any store with an exposed builder, with or without a certificate, it satisfies the hypothesis of the certificate theorems |
| Boot.StartedStatusIsOk | internal/controller/helpers.go:211-283 | over an empty status it satisfies the status invariants |

## Left out

- `reconcileDelete` and its finalizer: a pass over a builder that is being deleted ends without a write; no code adds the finalizer.
- Owner references and the garbage collection that follows them.
- RFC 3339 and quantity parsing: an annotation is absent, unreadable or an instant; sizes are opaque strings, and the panic on an unparseable size is not modelled.
- Defaulting.ValidatedFailsOnlyExternally: does not cover the panic of `resource.MustParse` on a claim size that is no quantity, because sizes are opaque here.
- RSA, X.509 encoding, PEM and serial numbers: keys and certificates are abstract values with issuer, subject key, name and window; parsing either succeeds or not.
- Service ports: a Service carries one node port, that of the port named `buildkit`; the fixed port numbers are left out.
- Server-side validation, among it the immutable selector of a StatefulSet after a mode switch: such a refusal is one of the faults a call may have.
- An update that changes nothing still advances the revision here; a real server may leave it, which only makes conditional writes succeed more often.
- Objects that fail to decode, events, logging, metrics, leader election, requeue delays and command-line flags.
- Security contexts, probes, tolerations and affinity contents: constant or opaque data of the pod.
- The template webhook: a few field checks, used nowhere in the pipeline.
- TOML as a grammar: the injection is modelled on text, as the code does it; a user text that mentions `tcp://` or the TLS section in a comment counts as having it, in the code as here, and lines are told apart without regard to multi-line values; the quoted key `["grpc"]` does not count as the header.
- Unicode: strings are sequences of characters.
- Certificates.GenerateCa: the validity bounds take one clock reading each, and a pass uses the same reading for both.
- Local Go objects other than the builder (specs, maps, children under construction) are values here, so aliasing between them is not modelled.
- Reconciler.Worker.EnsureNamespaceCa: returns the stored CA only where the CA is left alone by everybody but the operator.
