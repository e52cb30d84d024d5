# A verified model of the sip certificate machinery

The repository issues certificates for services in a Kubernetes cluster, with Vault as the authority.
Two controllers and three set-up jobs drive two stores, the Kubernetes API and Vault, one call at a
time; any call may fail and any process may stop between two calls. This project models that protocol
call by call and proves what it keeps: the chains of trust, the provisioning order of every engine,
the pairing of keys and certificates, convergence and the draining of the work queues, the WaitGroup
of the unseal workers, and the restarts of the jobs. The webhook, the mount names, the PEM bundles and
the demo's chain builder are modelled beside it.

Nothing here runs the original programs. `dafny verify dfyconfig.toml` checks everything.

## How it is built

- `Pki`, `Pem`: certificates as subject key, signer key and CA flag; path validation as in section 6.1
  of RFC 5280; PEM texts as in section 3 of RFC 7468. In the protocol a text is the list of its blocks;
  `Pem.JoinedTextsParseSeparately` is what allows that.
- `Environment`: the two stores and every call, as functions of the store and a fault. A fault either
  loses the call (no effect) or its reply (the effect happens, the caller sees an error). The store
  also keeps ledgers no program reads: leaves issued, intermediates signed, secrets written and by whom.
- `ClientCA`, `InternalCert`, `PkiJob`: one reconcile invocation, one job run, as a program counter and
  local variables, one call a step. The job has its goroutine as a second counter and the variable
  `err` they share, read and written where the program reads and writes it.
- `System`: any number of invocations of both controllers and one job run at a time, interleaved
  call by call, with crashes and users editing resources and secrets. The controllers' reads of
  Kubernetes answer from the present store or from any earlier one that a client cache has taken in.
  `Invariants` holds what every call keeps; `Theorems` and `Histories` state what follows for every
  reachable state and run.
- `Reconcilers`: the two reconcilers as classes with the methods of the source, against a mutable API
  object. Each method is proved to do what the step functions say, whatever others do before each of
  its calls.
- `PkiProgram`: the PKI job in the same form, its main flow and its goroutine as methods of objects
  whose fields hold what the two share. `PkiRuns`: its undisturbed runs under every interleaving.
- `Simulation`: with its turns drawn from a history of `System`, the run that such a method is proved
  to make is what the invocation, the main flow or the goroutine does in that history.
- `Outcomes`, `PkiOutcomes`: what a single run ends with under every sequence of faults. `Provenance`:
  to which secrets the controllers' writes go.
- `Convergence`: undisturbed InternalClientCA invocations. `WorkQueue`, `QueueProgress`, `QueueDrain`:
  the work queues of both controllers, one invocation of each in flight, their calls interleaved.
- `VaultNodes`, `VaultInit`, `VaultRuns`, `VaultReports`, `VaultFates`: the init job, its main flow and its three
  workers, as steps; `VaultProgram`: the same as methods.
- `Bootstrap`, `BootstrapRuns`: the bootstrap job, as a method over a mutable cluster object and as
  steps.
- `ChainBuilder`: Go slices over arrays with spare capacity, and the loop that appends to one.

What the environment is assumed to do: a Kubernetes Create is atomic and refuses a name in use or an
empty data key; an Update of a missing object is NotFound, replaces the whole object, and writes
nothing if nothing changes; the controllers' Updates carry no resource version, the jobs' Updates of an
object they have read do. Vault refuses to enable a path in use; the other engine calls need the mount;
generating a root, a CSR or a leaf takes a fresh key; issuing needs an issuer and a role, and the first
certificate of the chain it answers is the issuer; nobody disables or reconfigures the engines at the
programs' paths; one PKI job and one init job run at a time; nobody but the init job writes
`vault-unseal-key` and `vault-root-token` once Vault has been initialized.

## What turned out false, and the exact condition

- The set-up of the root engine is not always a prefix of its script. The goroutine assigns the `err`
  that the main flow tests (vault/client-go/pki/main.go:152 and 174-182), so a lost URL configuration
  can pass for a success. `Histories.RootEngineIsInOrderIff` says exactly at which event,
  `RacyRuns.RacyRunSkipsTheUrls` is such a run, `Histories.RaceFreeRunsProvisionRootInOrder` the rest.
- The same variable makes an undisturbed PKI job fail where it generates the root while an old
  `sip-root-ca` secret is there: `PkiRuns.EveryScheduleEndsUsableIff`. The root is published exactly
  when the goroutine makes its call before the process exits, `PkiRuns.PublishedIffCreated`; if it did
  not, no later run publishes it, `Histories.UnpublishedForever`.
- A certificate resource whose two data names are equal loses its key: `Theorems.SecretsHoldMatchingPairs`.
  The field comments promise defaults for both names
  (operator/internal-cert/api/v1alpha1/internalcertificate_types.go:61-69), but `Default` is empty.
- A half-provisioned client engine is never resumed: `Convergence.TwoPassesSettleIff`,
  `Convergence.HopelessForever`.
- Two InternalClientCA with one secret name take it from each other forever:
  `QueueDrain.DrainsIffSecretsDistinct`.
- Running the init job again unseals a restarted node only if the first node is sealed too, though
  README.md:154 promises it for any node: `VaultFates.RunAgainOpensIff`, and
  `VaultFates.RestartedNodeStaysSealed` for a history that gets there.
- A run stopped between Initialize and the write of the unseal key leaves a Vault the job can never
  open again: `VaultFates.StoppedRunLosesTheKey`, with the condition in `VaultFates.OpensAgainIff`.
- With fewer than three names a run with work to do hangs, and with three it does not:
  `VaultFates.ExitsOrHangsByNames` and `VaultFates.HangsIffFewNames`, `VaultFates.OneNameHangs` for an
  input. `VaultFates.CalmRunsExitIff` is the exact condition of the normal exit of runs without faults.
- A left-over `vault-ha-tls` secret without entries makes every bootstrap run panic:
  `Bootstrap.RestartsIff`. Two bootstrap jobs at once can store a key beside the other's certificate:
  `BootstrapRuns.TwoWritersMix`, with the condition in `WritesPairIff` and `CollectsOwnIff`.
- The demo's chain holds the last intermediate only: `ChainBuilder.ChainIsFullIff`,
  `ChainBuilder.ChainDecodesFullyIff`; and it decodes only if the leaf's file ends in a newline:
  `Pem.DemoBundleRoundTripIff`.

## Model

| member | source | states |
|---|---|---|
| Theorems.ClientEnginesAreProvisionedInOrder | operator/internal-client-ca/internal/controller/internalclientca_controller.go:154-219 | In every reachable state, however many invocations race for a common name, the steps done to its engine are a prefix of enable, tune, root, URLs, role, all by the invocation that enabled it, with at most one root |
| Theorems.IssuersNeverChange | operator/internal-client-ca/internal/controller/internalclientca_controller.go:104-110 | No later run of the whole system replaces the issuer of a client, root or intermediate engine |
| Theorems.IntermediateIsSignedOnce | vault/client-go/pki/main.go:203-291 | Over any number of job runs stopped anywhere: the intermediate's steps are a prefix of its script, at most one intermediate is signed, and an installed one is that one, for the engine's own CSR key and signed by the existing root |
| Histories.RootEngineIsInOrderIff | vault/client-go/pki/main.go:109-197 | The root is generated at most once, and the steps are a prefix of the script exactly when at no event of the history the main flow passed the test of a lost URL configuration with the error clear, or the role was not written after it |
| Theorems.RootEngineIsInOrderUnlessMasked | vault/client-go/pki/main.go:109-197 | The steps are a prefix of the script exactly when the flag that remembers such an event is not set or the role was not written |
| Histories.RunMasks | vault/client-go/pki/main.go:173-182 | After a history the flag is set exactly when it was before, or at some event the main flow passed the test of a lost call with the error clear |
| RacyRuns.RacyRunSkipsTheUrls | vault/client-go/pki/main.go:139-197 | A run from any initial world without that secret in which one lost call and an early goroutine leave the root engine with its role and without its URLs |
| Histories.RaceFreeRunsProvisionRootInOrder | vault/client-go/pki/main.go:139-197 | Without the goroutine clearing a pending error, the root engine's steps are a prefix of the script |
| Theorems.PublishedRootValidatesServerBundles | operator/internal-cert/internal/controller/internalcertificate_controller.go:127-184 | Every server certificate ever stored is the leaf and then the intermediate that signed it, and every root certificate the job ever published validates that path |
| Theorems.ServerSecretsAreBundles | operator/internal-cert/internal/controller/internalcertificate_controller.go:153-165 | A secret last written by a server reconcile holds a path that validates against the root engine's one root |
| Histories.PublishedRootIsExact | vault/client-go/pki/main.go:139-171 | A root secret that was not there at first and that only the job ever wrote holds `ca.pem` with the one generated root and nothing else |
| Histories.PublishingKeepsOtherKeys | vault/client-go/pki/main.go:157-164 | Whenever the goroutine writes, it writes the generated root under `ca.pem` and every other key and secret stays what it was at that moment |
| Histories.JobTouchesRootSecretAlone | vault/client-go/pki/main.go:142-161 | In every reachable state no step of the job, whatever happens to it, changes a secret other than `sip-root-ca` of its namespace |
| PkiOutcomes.AloneSurvivesIff | vault/client-go/pki/main.go:140-171 | Under every sequence of faults the goroutine ends the process or not exactly as its calls are served and the old secret has entries, and where it does not, `sip-root-ca` holds the root under `ca.pem` and what else it held |
| PkiOutcomes.UnservedMainCall | vault/client-go/pki/main.go:83-291 | An unserved call of the main flow ends the process, but the two Enables, which are passed over, and the two whose error goes to the shared variable |
| PkiOutcomes.TestPassesIff | vault/client-go/pki/main.go:180-197 | A test of the shared error lets the main flow pass exactly when there is none |
| Histories.UnpublishedForever | vault/client-go/pki/main.go:89-94 | Once the root engine is there and no run is generating or publishing, no event whatever makes the job write a root certificate again |
| PkiRuns.EveryScheduleEndsUsableIff | vault/client-go/pki/main.go:81-291 | An undisturbed run leaves both engines able to issue under every interleaving with its goroutine exactly when each was absent or able to before, and no old root secret waits for a run that generates a root |
| PkiRuns.EndsUsableIff | vault/client-go/pki/main.go:81-291 | Without such an old secret, any schedule that ends leaves both engines able to issue exactly when each was absent or able to before |
| PkiRuns.OldSecretCanFail | vault/client-go/pki/main.go:152-182 | With an old secret there is a schedule of an undisturbed run that ends in a fatal error before the role is written |
| PkiRuns.PublishedIffCreated | vault/client-go/pki/main.go:104-152 | A run that generates the root publishes it exactly when the goroutine makes its call before the process exits, and then the secret is the root alone |
| PkiJob.PersisterWritesRoot | vault/client-go/pki/main.go:140-171 | A step of the goroutine that writes sets `ca.pem` to the generated root in the present data and touches no other secret, under the invariant of a run |
| PkiProgram.Process.MainFlow | vault/client-go/pki/main.go:81-107 | The method makes the steps of the main flow of the step model and comes to the normal exit or not as it does, whatever the goroutine and others do before each |
| PkiProgram.Process.EnablePKIRootCA | vault/client-go/pki/main.go:109-201 | The root engine's calls, the error of two of them read from the shared variable after others may have set it |
| PkiProgram.Process.EnablePKIIntermCA | vault/client-go/pki/main.go:203-291 | The intermediate engine's calls, each fatal but the first |
| PkiProgram.RootPersister.Persist | vault/client-go/pki/main.go:140-171 | The goroutine's steps, with the in-place change of an existing secret |
| PkiJob.MainStepKeeps | vault/client-go/pki/main.go:81-137 | Each call of the main flow keeps the invariant of its run and of the store, and does no more than a job run may |
| PkiJob.PersisterStepKeeps | vault/client-go/pki/main.go:140-171 | Each step of the goroutine keeps both invariants, the main flow's included |
| PkiJob.MainStepMasks | vault/client-go/pki/main.go:173-182 | The main flow takes a lost call for a success at one test only, with the shared error clear |
| Theorems.ClientLeafVerifiesIffSameCN | operator/internal-cert/internal/controller/internalcertificate_controller.go:91-112 | A client leaf verifies against a certificate that an InternalClientCA for a common name ever stored, in any namespace and at any time, exactly when it was issued for that name followed by `-ca` |
| Theorems.StoredClientCAsAgree | operator/internal-client-ca/internal/controller/internalclientca_controller.go:111-150 | Two non-empty certificates ever stored for one common name are the same single self-signed certificate |
| Theorems.SecretsHoldMatchingPairs | operator/internal-cert/internal/controller/internalcertificate_controller.go:174-205 | A secret written by the certificate controller holds the key and the leaf of one Vault answer exactly when its two data names differ; two certificates exactly when the intermediate issued it |
| Provenance.WritesLandWhereNamed | operator/internal-cert/internal/controller/internalcertificate_controller.go:186-197 | Over every history each write of either controller went to the secret, and under the entries, that a resource of some store of the history named; a certificate write is the pair of the engine of that resource's usage |
| Theorems.DispatchIsDecided | operator/internal-cert/internal/controller/internalcertificate_controller.go:77-171 | Over every history of admitted creates and updates, a loaded resource has one usage and the branch that does nothing is not taken |
| Theorems.InvocationsIssueFromTheirEngine | operator/internal-cert/internal/controller/internalcertificate_controller.go:92-147 | An invocation asks only the engine of its usage, even when the resource is edited while it runs |
| Histories.ServerReconcilesRewriteNothing | operator/internal-cert/internal/controller/internalcertificate_controller.go:127-168 | No call of a server reconcile, in any reachable state and under any fault, changes an existing secret |
| Histories.ClientReconcilesRewriteOnlyIf | operator/internal-cert/internal/controller/internalcertificate_controller.go:85-123 | A client reconcile replaces a secret only in its Update, only the one it names, and only if its Get failed otherwise than NotFound or the secret was created after the store, present or cached, that answered the Get |
| Histories.SinceRecordsTheGet | operator/internal-cert/internal/controller/internalcertificate_controller.go:85-90 | The time kept for that is the time of the store that answered the Get exactly when the secret was absent there, and none exactly when the Get failed |
| InternalCert.ReadKeeps | operator/internal-cert/internal/controller/internalcertificate_controller.go:66-85 | Reads answered by a store a cache once held keep the invariant of an invocation |
| Histories.ServerCertificatesAreAccountedFor | operator/internal-cert/internal/controller/internalcertificate_controller.go:136-165 | Certificates issued by the intermediate equal those stored, those whose Create failed, those whose answer was lost, those stopped in between and those held now |
| System.RunKeeps | operator/internal-cert/internal/controller/internalcertificate_controller.go:59-172 | The invariant of the store and of every process holds after every sequence of events, from any state in which it holds |
| Reconcilers.InternalClientCAReconciler.Reconcile | operator/internal-client-ca/internal/controller/internalclientca_controller.go:77-152 | The method makes the calls of one invocation of the step model with the same result, whatever others do before each call |
| Reconcilers.InternalClientCAReconciler.EnablePKIClientCA | operator/internal-client-ca/internal/controller/internalclientca_controller.go:154-237 | The provisioning calls, ending with an error or with the certificate, which is empty when the token could not be read |
| Reconcilers.InternalCertificateReconciler.Reconcile | operator/internal-cert/internal/controller/internalcertificate_controller.go:59-172 | The method makes the calls of one InternalCertificate invocation of the step model with the same result, whatever others do before each call |
| Reconcilers.InternalCertificateReconciler.ReconcileClientAuth | operator/internal-cert/internal/controller/internalcertificate_controller.go:77-125 | The client branch: any failed Get leads to an issue, AlreadyExists to an Update |
| Reconcilers.InternalCertificateReconciler.ReconcileServerAuth | operator/internal-cert/internal/controller/internalcertificate_controller.go:127-168 | The server branch: a Get that fails otherwise than NotFound is dropped without an error |
| Reconcilers.InternalCertificateReconciler.BuildSecretFrom | operator/internal-cert/internal/controller/internalcertificate_controller.go:174-205 | Key and certificate entries, the certificate entry last, with the issuer's certificate after the leaf for server usage |
| Reconcilers.PathListed | operator/internal-client-ca/internal/controller/internalclientca_controller.go:94-106 | The string looked up in the listing is there exactly when the engine is mounted, and the trimmed string denotes that engine |
| Outcomes.ClientCARunSucceeds | operator/internal-client-ca/internal/controller/internalclientca_controller.go:77-152 | Whatever others do and whatever happens to the calls: a run without an error found no resource, or leaves the named secret with one entry of the given name holding one certificate or none; and every call was served but, perhaps, the read of the root token |
| Outcomes.UnservedClientCACall | operator/internal-client-ca/internal/controller/internalclientca_controller.go:97-150 | Every unserved call ends the invocation with an error, but the read of the root token, which leaves an empty certificate |
| Outcomes.CertificateRunSucceeds | operator/internal-cert/internal/controller/internalcertificate_controller.go:59-172 | A run without an error found no resource, or its Get found the secret or was not served on the server branch, or the named secret holds a pair of the engine of its usage; every call but the Get was served |
| Outcomes.UnservedCertificateCall | operator/internal-cert/internal/controller/internalcertificate_controller.go:85-165 | Every unserved call ends the invocation with an error, but the Get: the client branch goes on to issue, the server branch ends without one |
| Outcomes.AbsentResourceIsIgnored | operator/internal-client-ca/internal/controller/internalclientca_controller.go:84-88 | A resource that is not found, or asks for no usage, ends the run of either controller at once, without an error or a change |
| Simulation.CertificateRunIsProjection | operator/internal-cert/internal/controller/internalcertificate_controller.go:59-172 | With turns drawn from any history of the system, the run that Reconcile is proved to make ends with the store, the calls and the error of the invocation in that history |
| Simulation.ClientCARunIsProjection | operator/internal-client-ca/internal/controller/internalclientca_controller.go:77-152 | The run that Reconcile is proved to make ends with the store, the calls and the error of the invocation in the history its turns are drawn from |
| Simulation.MainRunIsProjection | vault/client-go/pki/main.go:81-107 | The run that the main flow is proved to make is its part of the history its turns are drawn from, also when the process is ended by another |
| Simulation.GoroutineRunIsProjection | vault/client-go/pki/main.go:140-171 | The run that the goroutine is proved to make is its part of the history its turns are drawn from |
| ClientCA.StepKeeps | operator/internal-client-ca/internal/controller/internalclientca_controller.go:97-150 | Each call of an InternalClientCA invocation keeps both invariants and does no more than it may |
| InternalCert.StepKeeps | operator/internal-cert/internal/controller/internalcertificate_controller.go:85-165 | Each call of an InternalCertificate invocation keeps both invariants and provisions no engine |
| InternalCert.WriteEffect | operator/internal-cert/internal/controller/internalcertificate_controller.go:112-118 | A write touches the resource's secret alone, and only the Update replaces one that exists |
| Convergence.PassWhenMounted | operator/internal-client-ca/internal/controller/internalclientca_controller.go:124-150 | An undisturbed pass with the engine listed is one Update, and one Create if there was nothing to update |
| Convergence.PassWhenAbsent | operator/internal-client-ca/internal/controller/internalclientca_controller.go:104-122 | An undisturbed pass without the engine provisions it fully and makes one Create |
| Convergence.PassOnSettledChangesNothing | operator/internal-client-ca/internal/controller/internalclientca_controller.go:124-150 | Once the secret is exactly the engine's root, a pass changes neither Vault nor the cluster and succeeds |
| Convergence.FirstPass | operator/internal-client-ca/internal/controller/internalclientca_controller.go:116-122 | A first pass fails exactly when the engine is absent and the secret exists already |
| Convergence.TwoPassesSettleIff | operator/internal-client-ca/internal/controller/internalclientca_controller.go:103-151 | Two passes settle a resource exactly when its engine was never begun or has its root, and its certificate name is not empty |
| Convergence.TwoPassesStoreTheRoot | operator/internal-client-ca/internal/controller/internalclientca_controller.go:103-151 | Where two passes settle a resource, the secret it names holds exactly the root of the engine of its common name under the given name and belongs to it, and every other secret is as it was |
| Convergence.PassTouchesOneSecret | operator/internal-client-ca/internal/controller/internalclientca_controller.go:239-248 | A pass of a resource changes no secret but the one it names |
| Convergence.HopelessForever | operator/internal-client-ca/internal/controller/internalclientca_controller.go:104-123 | With a half-provisioned engine or an empty certificate name, no number of passes settles the resource without an error |
| WorkQueue.NextKeeps | operator/internal-client-ca/internal/controller/internalclientca_controller.go:77-152 | Every pick-up and every call of the two interleaved controllers keeps the engines in order, what the invocations in flight know, and that whatever is not in its desired form is queued or in flight |
| QueueProgress.StepLowers | operator/internal-client-ca/internal/controller/internalclientca_controller.go:103-151 | Every pick-up and call lowers a measure, but an issue whose engine is still to come |
| QueueDrain.SchedulesAreBounded | operator/internal-client-ca/internal/controller/internalclientca_controller.go:292-297 | With distinct secrets for the client CAs, a schedule of the interleaved controllers has at most as many turns as the measure says, and 18 for each such vain issue |
| QueueDrain.CATurnsAreBounded | operator/internal-client-ca/internal/controller/internalclientca_controller.go:292-297 | The InternalClientCA controller has a bounded number of turns in every schedule, however often certificates are tried again |
| QueueDrain.RetryMeansCAHasWork | operator/internal-cert/internal/controller/internalcertificate_controller.go:95-104 | An issue is tried in vain only while the InternalClientCA controller has work |
| QueueDrain.FairSchedulesAreBounded | operator/internal-cert/internal/controller/internalcertificate_controller.go:208-213 | A schedule that leaves the InternalClientCA controller waiting for at most k turns while it has work is bounded by a number known at the start |
| QueueDrain.QueuesDrain | operator/internal-cert/internal/controller/internalcertificate_controller.go:208-213 | While anything is queued or in flight there is a next turn; when nothing is, every resource is in its desired form |
| QueueDrain.SharedSecretsNeverDrain | operator/internal-client-ca/internal/controller/internalclientca_controller.go:138-150 | With one secret shared by two client CAs no schedule empties the queues |
| QueueDrain.DrainsIffSecretsDistinct | operator/internal-client-ca/internal/controller/internalclientca_controller.go:292-297 | The queues can be emptied exactly when no two client CAs name one secret, also from states where a certificate waits for its queued CA |
| QueueDrain.CertificatesGetTheirPairs | operator/internal-cert/internal/controller/internalcertificate_controller.go:127-168 | Along every schedule, a certificate secret that no other resource names is what it was, or absent, or one pair issued by the engine of its usage; and it is there when the queues are drained |
| Admission.AdmittedIffOneUsage | operator/internal-cert/api/v1alpha1/internalcertificate_webhook.go:61-108 | A create or update is accepted exactly when it asks for one usage; a refusal names one field |
| Admission.SubmitKeepsOneUsage | operator/internal-cert/api/v1alpha1/internalcertificate_webhook.go:61-74 | Admission keeps every stored resource at one usage |
| Admission.SubmitStoresIffOneUsage | operator/internal-cert/api/v1alpha1/internalcertificate_webhook.go:84-108 | A resource is stored under its name exactly when it asks for one usage, nothing else changes, and a refusal names the resource, the field and the reason |
| MountNames.TrimmedPathIsTheMount | operator/internal-client-ca/internal/controller/internalclientca_controller.go:94-106 | Trimming the final slash and adding it again is the identity, so the path enabled is the one the next listing is asked for |
| MountNames.ClientPathInjective | operator/internal-client-ca/internal/controller/internalclientca_controller.go:94 | Two common names have one path exactly when they are equal |
| MountNames.IssuerResolvesToMount | operator/internal-cert/internal/controller/internalcertificate_controller.go:93-100 | An issuer reference names the engine of a common name exactly when it is that name followed by `-ca` |
| MountNames.ClientPathsAreNotServerPaths | operator/internal-cert/internal/controller/internalcertificate_controller.go:100-147 | No client path is the root's or the intermediate's |
| MountNames.ListedIffMounted | operator/internal-client-ca/internal/controller/internalclientca_controller.go:97-104 | A path with a slash is listed exactly when its engine is mounted |
| Pem.OperatorBundleRoundTrip | operator/internal-cert/internal/controller/internalcertificate_controller.go:176-184 | Two well-formed blocks joined with a newline decode to the leaf and then the CA, whatever their final newlines |
| Pem.DemoBundleRoundTripIff | mtls-demo/util.go:103-117 | Two well-formed blocks joined without a separator decode to the leaf and then the CA exactly when the first ends in a newline |
| Pem.ParseRender | mtls-demo/util.go:50-62 | Decoding an encoded block gives it back |
| Pem.RenderedText | mtls-demo/util.go:50-62 | The text of a block: the begin line, the body and the end line, each ended |
| Pem.JoinedTextsParseSeparately | operator/internal-cert/internal/controller/internalcertificate_controller.go:183 | Texts joined with a newline decode to the blocks of the one and then of the other, if the first leaves no block open |
| ChainBuilder.Append | mtls-demo/util.go:116 | The result is the one text and then the other, in place exactly when the capacity suffices, and the first slice's own bytes stay |
| ChainBuilder.AppendEach | mtls-demo/util.go:111-117 | Over the whole loop the leaf's bytes stay and the chain is the leaf and the last intermediate |
| ChainBuilder.BuildCertChain | mtls-demo/util.go:103-127 | The output file is the leaf and the last intermediate, empty without intermediates, and nothing is written when a file is missing |
| ChainBuilder.BuildServerCertChain | mtls-demo/util.go:103-127 | The server chain file is the leaf followed by the last intermediate, and no other file changes |
| ChainBuilder.BuildClientCertChain | mtls-demo/util.go:129-153 | The client chain file is the leaf followed by the last intermediate, and no other file changes |
| ChainBuilder.ChainIsFullIff | mtls-demo/util.go:129-143 | What the loop builds is the full chain exactly when all intermediates before the last are empty files |
| ChainBuilder.ChainDecodesFullyIff | mtls-demo/main.go:9-15 | With files as the demo writes them, the chain decodes to the leaf and every intermediate exactly when there is one intermediate |
| VaultNodes.NodeNames | vault/client-go/init/main.go:47-53 | One name for each part of the list, in order, two equal exactly when their parts are |
| VaultNodes.SplitIsExact | vault/client-go/init/main.go:50 | Splitting loses nothing and gives one part more than there are commas |
| VaultProgram.Process.MainFlow | vault/client-go/init/main.go:63-83 | The method makes the steps of the main flow of the step model up to its deferred Wait, whatever workers and others do before each |
| VaultProgram.Process.InitVault | vault/client-go/init/main.go:86-187 | Initialize, the go statements and the two secrets, in order |
| VaultProgram.Process.UnSeal | vault/client-go/init/main.go:189-205 | Read the key, a missing entry being the empty string, and start the workers |
| VaultProgram.Process.Persist | vault/client-go/init/main.go:122-152 | Create a secret, or change its entry in place; a missing map ends in the deferred Wait |
| VaultProgram.Process.UnSealWorker | vault/client-go/init/main.go:207-228 | A worker's steps: it ends the process or itself, then with its one decrement of the counter |
| VaultInit.MainKeeps | vault/client-go/init/main.go:63-205 | Each step of the main flow keeps the invariant of the job, the secrets and the nodes |
| VaultInit.WorkerKeeps | vault/client-go/init/main.go:207-228 | Each step of a worker keeps the invariant of the job, the secrets and the nodes |
| VaultInit.RunKeeps | vault/client-go/init/main.go:63-228 | Every history of runs, kills and reseals keeps that invariant |
| VaultRuns.WaitGroupIsSafe | vault/client-go/init/main.go:86-205 | Over every schedule the counter is between 0 and 3 and is the number of workers to finish; a normal exit past the Wait means all three have finished |
| VaultRuns.WorkersFinishOnce | vault/client-go/init/main.go:207-213 | The counter falls by one exactly when one more worker has finished, and a finished worker stays so |
| VaultRuns.StepsAreBounded | vault/client-go/init/main.go:63-228 | Every step of a process that changes anything lowers a rank of at most 24 |
| VaultRuns.StuckOnlyWhenHung | vault/client-go/init/main.go:86-111 | A running process can always move, but after a look-up that panicked it waits in vain for workers never started |
| VaultFates.ExitsOrHangsByNames | vault/client-go/init/main.go:107-111 | A launch with work to do and its key and secrets in order: with three names every schedule without faults can go on to the normal exit, with fewer every one stays running and goes on to the hang |
| VaultFates.HangsIffFewNames | vault/client-go/init/main.go:107-111 | Such a launch can hang exactly when it has fewer than three names |
| VaultFates.OneNameHangs | vault/client-go/init/main.go:47-53 | One name on a new Vault hangs after four calls of the main flow and three steps of the worker |
| VaultFates.CalmRunsExitIff | vault/client-go/init/main.go:63-228 | A launched run exits normally under every schedule without faults exactly when there is a client and nothing to do, or three names and the stored key the minted one, or on a new Vault no left-over secret without entries |
| VaultRuns.MintedOnce | vault/client-go/init/main.go:70-98 | No run replaces the key and token of the one Initialize |
| VaultRuns.SecretsAreFrozen | vault/client-go/init/main.go:70-83 | Once the initializing run is over, no later run changes the two secrets |
| VaultReports.InitAndUnsealAgree | vault/client-go/init/main.go:86-228 | Once an initializing run exits normally, for good: the unseal secret holds under `key` the key and the token secret under `token` the token of the one Initialize, with every other entry they had; and every later run that found the first node sealed and exits normally has read that key, and every node for which a client was set up is open or sealed since the run began |
| VaultReports.ReportsAreTrue | vault/client-go/init/main.go:207-213 | Over every history a finished worker reports that it had no client exactly when the event that set it up said so |
| VaultReports.NormalExitOpens | vault/client-go/init/main.go:86-228 | A normal exit past the Wait means that it was decided for all three workers whether they have a client, and the nodes of those that have are open or sealed since |
| VaultReports.UnservedUnseal | vault/client-go/init/main.go:220-226 | A worker's call ends the process exactly when it is not served or brings a wrong key to a sealed node, and otherwise the node is open |
| VaultReports.UnservedMainCall | vault/client-go/init/main.go:63-185 | Every unserved call of the main flow ends the process, the read of a secret through the panic and the deferred Wait |
| VaultReports.OtherEntriesStay | vault/client-go/init/main.go:141-143 | No history changes another entry of the two secrets |
| VaultFates.OpensAgainIff | vault/client-go/init/main.go:189-205 | Once the initializing run is over, some history opens a sealed node exactly when the stored key is the minted one |
| VaultFates.StoppedRunLosesTheKey | vault/client-go/init/main.go:92-134 | A run stopped between Initialize and the write of the key leaves a Vault of which no history opens a node, unless an old secret holds that very key |
| VaultFates.RunAgainOpensIff | vault/client-go/init/main.go:70-78 | A run without faults can open a sealed node exactly when the first node is sealed |
| VaultFates.RestartedNodeStaysSealed | vault/client-go/init/main.go:70-78 | From a new Vault a history leads to a restarted node that the job, run again, opens under no schedule |
| Bootstrap.Bootstrap | vault/client-go/bootstrap/main.go:124-216 | The method makes the calls of the step model with the same outcome, whatever others do before each call |
| Bootstrap.Request | vault/client-go/bootstrap/main.go:124-163 | Create, replace and approve the signing request; the error of the second Create is dropped |
| Bootstrap.Persist | vault/client-go/bootstrap/main.go:175-214 | Store the pair, replacing both entries of an existing secret, and delete the request |
| Bootstrap.RestartsIff | vault/client-go/bootstrap/main.go:124-214 | From every state a run without faults finishes with no request left and its own key beside its certificate or none, exactly when no secret without entries is in its way; with a prompt signer the certificate is there |
| Bootstrap.FinishedMeansStored | vault/client-go/bootstrap/main.go:124-214 | Under every sequence of faults, with only the signer in between, a run that finishes has left no request, its key under `vault.key`, and under `vault.crt` a certificate of it or none |
| Bootstrap.FinishedMeansServed | vault/client-go/bootstrap/main.go:124-214 | Of a run that finishes, whatever others do, every call was served but, perhaps, the second Create of the request |
| Bootstrap.UnservedCall | vault/client-go/bootstrap/main.go:124-214 | Every unserved call ends the run, but that Create; the read of the secret ends it with a panic |
| BootstrapRuns.OneWriterStoresPairs | vault/client-go/bootstrap/main.go:61-214 | Over every history with one writer at a time, faults and crashes, the secret is as before or holds a key and a certificate of it or none |
| BootstrapRuns.WritesPairIff | vault/client-go/bootstrap/main.go:175-202 | With any number of writers, a write leaves a pair exactly when the collected certificate is none or the writer's own |
| BootstrapRuns.WritesKeepOthers | vault/client-go/bootstrap/main.go:151-198 | With any number of jobs and others editing the secret, a write keeps every other entry as it is at that moment, and an approval that takes effect is of the request that was read |
| BootstrapRuns.CollectsOwnIff | vault/client-go/bootstrap/main.go:168-182 | A job collects no certificate or its own exactly when the request it finds is its own or not yet signed |
| BootstrapRuns.TwoWritersMix | vault/client-go/bootstrap/main.go:128-207 | Two jobs without any fault can store a key beside the other's certificate |

## Left out

- `disableFlag` (both places): one best-effort request that sets an optional flag of a role and whose failure is ignored.
- HTTP, TLS, client libraries, logging, manager set-up and configuration loading: only their stated success and failure results appear.
- Names, validity periods, key usages and revocation in path validation; keys and signatures are abstract, and a fresh key is one never used before.
- PEM headers, base64 and text before a block within a line; a block's body is any lines without a dash.
- Types, labels and immutability of secrets; a failing owner reference.
- Vault nodes that have not joined the cluster: their Unseal is one of the calls that may be lost.
- The deferred Wait of the init job blocks; the methods of `VaultProgram` end where it begins, and the blocking is the step `Await` of `VaultInit`. Goroutines share fields, not memory below them; data races on single words are not modelled.
- Waiting times: a sleep is a point at which anything else may happen.
- Deletion of the init job's two secrets, or edits of them by others.
- QueueDrain.QueuesDrain: faults and client caches are off there, and the desired form of a certificate is the presence of its secret, as in the controller, which never looks into it; what it then holds is in QueueDrain.CertificatesGetTheirPairs.
- QueueDrain.CertificatesGetTheirPairs: where another resource names the secret too, only its presence is promised.
- Convergence.TwoPassesSettleIff: undisturbed passes; what other invocations do in between is covered by the safety theorems.
- Owner garbage collection, and edits of resources while the queues drain; more than one worker of a controller at a time in the queues.
- `parsePemCert`, `parseECKey`, `KeyToFile`, `csrToFile` and the demo's certificate generators: single library calls.
- `ValidateDelete`, which accepts everything.
