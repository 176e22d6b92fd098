# Shop operator: a verified model

The operator turns a `Shop` into a running web shop: a database, five microservices,
a Wallet for the payout address, a Discord channel for alerts, and the monitoring
around them. Three controllers share one object store and are restarted, retried
and interleaved at any point. This project models them in Dafny and proves what
holds over all their runs.

`dafny verify dfyconfig.toml` checks everything.

## What is modelled

**The DiscordChannel controller** (`ChannelLifecycle.dfy`, `ChannelInvariant.dfy`,
`ChannelTheorems.dfy`, `ChannelConvergence.dfy`, `ChannelReconciler.dfy`, `DiscordApi.dfy`).
One step is one API-server or Discord call (`Advance`). Any number of reconciles of one
object overlap; each starts from any version ever stored (a stale cache), every call may
work, fail without effect, or take effect and lose its reply, and a reconcile may stop
before any call (`Crash`). Writes use optimistic locking: the resource version is the
position in the history of stored versions. The world records which channels and webhooks
exist on Discord. The class `DiscordChannelReconciler` has the shape of the Go method,
updating one object in place, and is proved equal to the step machine run to its end.
Most theorems are about `Reachable` states, that is, about every run.

**The Shop controller** (`ShopModel.dfy` and the other `Shop*.dfy`). A reconcile is a
program of steps, each reading at most two objects and writing at most one. It ends with the loop over
the microservices, the status write, the Ingress and the requeue decision. `ShopObservation.dfy`
gives each step a view of the cluster of its own, so that others may interfere.
`ShopEnvironment.dfy` says variable by variable what a container gets, `ShopContents.dfy` what the
objects of a final cluster contain, and `ShopOwnership.dfy` what is never touched. The class
`ShopReconciler` has one method per Go function, with the loop and the early returns, and
is proved equal to that program under arbitrary faults. The microservice table is a
parameter; `TableIsValid` shows that the operator's own table meets the assumptions.

**The payout pipeline** (`WalletController.dfy`, `PayoutPipeline.dfy`, `PayoutProgress.dfy`,
`PayoutTermination.dfy`).
The address goes from the Shop's spec to the Wallet's spec, through the Wallet controller's
verdict to the Wallet's status, and from there into the payment Deployment. Two work queues,
informer caches that lag until an event is delivered, edits by people, failures, write
conflicts and restarts are actions of one state machine.

**Alert routing** (`AlertRouting.dfy`). The whole DiscordChannel system composed with the
Shop controller's queue and caches; the Secret's event and those of the DiscordChannel arrive
separately. `Projections.dfy` shows that the Shop controller's moves in these two systems are
steps of its own program.

**Names, labels and patterns** (`Names.dfy`, `Labels.dfy`, `ShopSelection.dfy`, `MetricsScope.dfy`,
`Regex.dfy`, `Address.dfy`, `ChannelName.dfy`, `Text.dfy`). All Shops live in one namespace, so
isolation rests on string concatenation, label selectors and one regular expression; `Regex.dfy`
gives regular expressions their usual meaning.

Assumptions about the outside: Discord returns new, non-empty ids, webhook ids contain no
slash, and 404 on a delete means that the channel is gone. Migration hashes have eight digits.
Passwords and hashes are functions given from outside. No leftover Secret of an earlier object
with the same name exists.

## Where the code and its comments differ

The model follows the code. These differences are stated as theorems:

- `internal/controller/discordchannel_controller.go:204-209` ignores a Secret that already
  exists, so after a crash the stored webhook id and the Secret can name two different
  webhooks (`SecretCanNameAnotherWebhook`; `SecretProvenance` says exactly when they agree).
- `internal/controller/shop_controller.go:972-981` says that a miss only means that the status
  is not written yet. Every error of the lookup has the same effect, and nothing retries it
  (`FailedLookupIsForgotten`; `CorrectAtRest` says exactly when the result is right).
- `internal/controller/shop_alerts.go:125-127` relies on the DiscordChannel's status event.
  Secrets are not watched by the Shop controller, so a Secret that reaches its cache after the
  last lookup leaves the alerts unrouted (`LateSecretLeavesAlertsUnrouted`; `RoutedAtRest` says
  exactly when, and `OrderedEventsRoute` that events delivered in order suffice).
- A missing bot token turns Ready off, and once the webhook id is stored nothing turns it on
  again (`MissingTokenIsPermanent`; `ReadyIffStoredUnlessDropped` says exactly when Ready and the
  stored webhook id agree).
- The metrics scope is not limited to the Shop's own pods. The Deployment pods of a Shop named
  `X-auth`, or `X-auth-...`, are in the scope of Shop `X`. Migration Jobs are named without the
  `shop-` stem, so the migration pods of a Shop named `shop-X` are in it too, and a Shop's own
  never are (`NamesakeMigrationsAreReached`, `ScopeOfOwnPods`). Dots in names act as wildcards
  (`DotsReachFurther`). `ScopeExactly` says which pods are reached, `IsolatedExactlyWhen` which
  Shops are not.

## Model

| member | source | states |
|---|---|---|
| ChannelTheorems.IdentifiersAreWriteOnce | internal/controller/discordchannel_controller.go:145-223 | along every run a stored channel or webhook id is never replaced or cleared, deletion is never undone, and a removed object stays removed |
| ChannelTheorems.StoredVersionsAreOrdered | internal/controller/discordchannel_controller.go:149-221 | in every version ever stored a webhook id comes with a channel id and an existing webhook Secret, and Ready=True comes with both ids |
| ChannelTheorems.SecretComesFirst | internal/controller/discordchannel_controller.go:189-218 | the step that first stores a webhook id finds the Secret already there and leaves it alone |
| ChannelTheorems.ChannelAccounting | internal/controller/discordchannel_controller.go:149-171 | in every reachable state the channels ever created are the disjoint union of the stored one, those held by in-flight reconciles, and the lost ones; the counts add up |
| ChannelTheorems.HeldByOne | internal/controller/discordchannel_controller.go:150-165 | no two in-flight reconciles hold the same channel |
| ChannelTheorems.AtMostOneChannel | internal/controller/discordchannel_controller.go:149-171 | if no channel was lost and none is in flight, at most one was ever created and it is the stored one |
| ChannelTheorems.LostExactlyWhen | internal/controller/discordchannel_controller.go:149-171 | a step loses a channel iff it is a crash before the id is stored, a status write that does not take effect, or a create whose reply is lost |
| ChannelTheorems.EditLosesChannel | internal/controller/discordchannel_controller.go:165-170 | a concrete run without crash or network error in which an unrelated edit makes the status write conflict and a channel is lost |
| ChannelTheorems.FinalizerRemovalIsSafe | internal/controller/discordchannel_controller.go:119-134 | whatever snapshot it started from, the step that removes the finalizer finds the object being deleted and the stored channel absent or not live |
| ChannelTheorems.RemovedLeavesNoOrphan | internal/controller/discordchannel_controller.go:119-134 | once the object is gone, a live channel is held by a reconcile or was lost; with neither, none is live |
| ChannelTheorems.FinishedMeansNothingLeft | internal/controller/discordchannel_controller.go:70-225 | a reconcile that ends without error or requeue leaves the latest version with a webhook id, or deleted and released, exactly unless it is deleted with the finalizer still on, and then deletion was requested after the version the reconcile worked on |
| ChannelTheorems.FinishedOnOldSnapshot | internal/controller/discordchannel_controller.go:119-147 | a concrete run in which a reconcile finishes while a deleted object still has its finalizer and a live channel |
| ChannelTheorems.SecretProvenance | internal/controller/discordchannel_controller.go:173-221 | the Secret's URL names a webhook on the stored channel, and names the stored webhook iff the reconcile that made the Secret made that webhook |
| ChannelTheorems.StoredByItsMaker | internal/controller/discordchannel_controller.go:174-218 | the reconcile that stores a webhook id is the one that created that webhook |
| ChannelTheorems.SecretCanNameAnotherWebhook | internal/controller/discordchannel_controller.go:204-218 | a concrete run with one crash after which a Ready channel's Secret names another webhook than the stored one |
| ChannelTheorems.ReadyDropsExactlyWhen | internal/controller/discordchannel_controller.go:76-117 | once the webhook id is stored, a step turns Ready off iff it records a missing token on the latest version; no other step and no other reason does |
| ChannelTheorems.TokenDecides | internal/controller/discordchannel_controller.go:76-117 | in every run where a reconcile has got to follows from what its token read answered: only an absent Secret or key is recorded and repeated later, any other failed read is an error, and everything else needs the token |
| ChannelTheorems.ReadyDropsOnlyWithoutToken | internal/controller/discordchannel_controller.go:76-117 | in every run, once the webhook id is stored Ready drops only in a reconcile whose token read answered that the Secret or its key is absent, with the reason that says which |
| ChannelTheorems.StoringTurnsReadyOn | internal/controller/discordchannel_controller.go:211-221 | the step that first stores the webhook id turns Ready on |
| ChannelTheorems.ReadyIffStoredUnlessDropped | internal/controller/discordchannel_controller.go:76-221 | over every run from the start Ready=True iff the webhook id is stored and no reconcile recorded a missing token on a version that had it |
| ChannelTheorems.ReadyIsNotRestored | internal/controller/discordchannel_controller.go:145-147 | once a webhook id is stored, a Ready condition that is not True never becomes True |
| ChannelInvariant.StepKeeps | internal/controller/discordchannel_controller.go:67-226 | the invariant behind these theorems is kept by every call of every reconcile and by everything the environment does |
| ChannelLifecycle.RankDecreases | internal/controller/discordchannel_controller.go:67-226 | every call brings the reconcile closer to its end, and stored versions are never rewritten |
| ChannelConvergence.ExecIsARun | internal/controller/discordchannel_controller.go:67-226 | an uninterrupted reconcile is one of the system's runs |
| ChannelConvergence.MissingNeverIncreases | internal/controller/discordchannel_controller.go:137-221 | the number of missing things (finalizer, channel id, webhook id) never increases while the object is not deleted |
| ChannelConvergence.CleanReconcileSettles | internal/controller/discordchannel_controller.go:137-225 | from any reachable state one clean reconcile on the latest version stores both ids, creates a channel or webhook only if its id was missing, and loses nothing |
| ChannelConvergence.SettledStaysQuiet | internal/controller/discordchannel_controller.go:137-147 | with the token present, a reconcile of a settled channel makes no Discord call and no write |
| ChannelConvergence.Converges | internal/controller/discordchannel_controller.go:137-225 | any run with faults, then one clean reconcile, then every later reconcile is quiet |
| ChannelConvergence.RunsCanEnd | internal/controller/discordchannel_controller.go:67-226 | from any state every reconcile in flight can end, even if all its calls fail, with no effect but channels whose id is lost |
| ChannelConvergence.SettledIsReachable | internal/controller/discordchannel_controller.go:137-225 | from every reachable state of an undeleted object the controller can come to rest with both ids stored |
| ChannelConvergence.DeletionRetry | internal/controller/discordchannel_controller.go:119-134 | a reconcile of a deleted object removes the finalizer iff there is no channel or Discord accepts the delete, and otherwise changes nothing |
| ChannelConvergence.RetryReleases | internal/discord/client.go:170-175 | after an attempt that deleted the channel but did not release the object, the next one meets 404 and releases it |
| ChannelConvergence.MissingToken | internal/controller/discordchannel_controller.go:75-117 | without a usable token nothing is asked of Discord, the reason is recorded, and the reconcile is repeated after five minutes |
| ChannelConvergence.FailedTokenRead | internal/controller/discordchannel_controller.go:95-96 | a token read that fails in any other way is returned as an error, with nothing written and nothing asked of Discord |
| ChannelConvergence.RefusedChannel | internal/controller/discordchannel_controller.go:151-163 | a refused channel create is recorded as ChannelCreationFailed, returned as an error, and stores no id |
| ChannelConvergence.RefusedWebhook | internal/controller/discordchannel_controller.go:175-187 | a refused webhook create is recorded as WebhookCreationFailed and keeps the channel id for the retry |
| ChannelConvergence.MissingTokenIsPermanent | internal/controller/discordchannel_controller.go:76-147 | a reconcile without a token on a channel with a stored webhook id turns Ready off for the rest of every run |
| ChannelReconciler.DiscordChannelReconciler.Reconcile | internal/controller/discordchannel_controller.go:67-226 | the method, with its in-place updates and early returns, has the effect and result of the step machine run to its end; a failed token read is an error that leaves the world as it was, and an absent token asks to be called again in 300 s |
| ChannelReconciler.DiscordChannelReconciler.CleanupOrBuild | internal/controller/discordchannel_controller.go:119-225 | from the token on, the same |
| ChannelReconciler.DiscordChannelReconciler.Cleanup | internal/controller/discordchannel_controller.go:119-135 | the deletion branch, the same |
| ChannelReconciler.DiscordChannelReconciler.BuildChannel | internal/controller/discordchannel_controller.go:149-163 | the channel branch, the same |
| ChannelReconciler.DiscordChannelReconciler.RecordChannel | internal/controller/discordchannel_controller.go:165-171 | storing the channel id, the same |
| ChannelReconciler.DiscordChannelReconciler.BuildWebhook | internal/controller/discordchannel_controller.go:173-187 | the webhook branch, the same |
| ChannelReconciler.DiscordChannelReconciler.PublishWebhook | internal/controller/discordchannel_controller.go:189-223 | Secret first, then status, the same |
| ChannelReconciler.DiscordChannelReconciler.Unready | internal/controller/discordchannel_controller.go:81-92 | the failing exits record their reason and ignore whether that worked |
| DiscordApi.WebhookUrlInjective | internal/discord/client.go:136-140 | a webhook URL determines the webhook and its token |
| ChannelName.Sanitize | internal/discord/client.go:178-192 | the three passes, the cut and the fallback give an acceptable name that is a prefix of the one-pass map-and-filter, or unnamed-channel when nothing is left; a non-empty name of ASCII letters, digits, _, - and spaces keeps its length up to 100, letter by letter in lower case, with - for a space |
| ChannelName.ThreePassesAreOne | internal/discord/client.go:179-181 | the three passes equal one character-by-character pass |
| ChannelName.EveryCharacter | internal/discord/client.go:179-181 | one character at a time: ASCII letters become the lower-case letter of the same place in the alphabet, a space becomes -, digits, _ and - stay, and all others but two are dropped |
| ChannelName.SanitizedIsAcceptable | internal/discord/client.go:178-192 | 1 to 100 characters, all in a-z, 0-9, _ and - |
| ChannelName.FixedPoints | internal/discord/client.go:178-192 | the names left alone are exactly the acceptable ones |
| ChannelName.Idempotent | internal/discord/client.go:178-192 | sanitising twice is sanitising once |
| Address.ValidIffPatternMatches | internal/wallet/address.go:23-31 | a valid address is exactly what the pattern matches |
| Names.ChildNamesAreCollisionFree | internal/controller/shop_controller.go:285-355 | per kind, over all Shop names, an object's name determines the Shop and the role |
| Names.MigrationCollision | internal/controller/shop_controller.go:886-900 | Job names with a hash of fixed length determine Shop, service and hash |
| Names.ChildKeysAreCollisionFree | internal/controller/discordchannel_controller.go:189-193 | the keys of children, including the webhook Secret of the other controller, are equal only for the same Shop and role |
| Labels.ServiceSelection | internal/controller/shop_controller.go:289-293 | the labels of (X, m) select those of (Y, n) iff X = Y and m = n |
| Labels.MonitorSelection | internal/controller/shop_controller.go:1045-1055 | instance label and component list select exactly the Shop's own listed components |
| Labels.AlertRoutingIsExact | internal/controller/shop_alerts.go:141-181 | an alert of Shop X matches Y's route iff X = Y, and receivers and Secrets are per Shop |
| ShopSelection.ServicesReachOwnPods | internal/controller/shop_controller.go:745-749 | the Service made for (X, m) selects the pods of the Deployment made for (Y, n) iff X = Y and m = n |
| ShopSelection.MonitorsReachOwnServices | internal/controller/shop_controller.go:1012-1063 | a Shop's ServiceMonitor scrapes a Service iff it is the Shop's own and its microservice exposes metrics |
| ShopSelection.AlertsReachOwnRoute | internal/controller/shop_alerts.go:40-54 | each alert the Shop's rules raise is matched by its own routing object and by no other Shop's |
| ShopSelection.AlertsRangeOverOwnScope | internal/controller/shop_alerts.go:61-110 | the warning and the critical alert range over exactly the pods of the own namespace in the own metrics scope, and so does the dashboard |
| MetricsScope.PatternReaches | internal/controller/shop_dashboard.go:148-151 | for every Shop name the pattern matches exactly the strings that begin with the Shop's resource name, a backend and a dash, where each dot of the name stands for any character |
| MetricsScope.ScopeOfOwnPods | internal/controller/shop_dashboard.go:148-151 | for every Shop name, of its own pods the scope has exactly the Deployment pods of the listed services, and never a migration pod |
| MetricsScope.ScopeWithoutDots | internal/controller/shop_dashboard.go:148-151 | for a dot-free X the exact scope with X taken literally, for Deployment and migration pods |
| MetricsScope.ScopeExactly | internal/controller/shop_dashboard.go:148-151 | for every Shop X and every pod of a Deployment or migration Job: the pod is in X's scope iff what stands before its service is like shop-X and the service is listed, or is like shop-X-s or begins like shop-X-s- for a listed s |
| MetricsScope.ScopeByShop | internal/controller/shop_controller.go:900-900 | the same by Shop names: a Deployment pod of Y iff Y is like X with a listed service, or like X-s or X-s-...; a migration pod of Y, whose Job's name has no shop- stem, iff the same holds with shop-X for X |
| MetricsScope.IsolatedExactlyWhen | internal/controller/shop_dashboard.go:148-151 | X's scope reaches no pod of Y at all iff Y is like none of X, X-s, X-s-..., shop-X, shop-X-s and shop-X-s-... |
| MetricsScope.BackendScope | internal/controller/shop_dashboard.go:150-150 | the exact scope for the four backends of the pattern |
| MetricsScope.DotsReachFurther | internal/controller/shop_dashboard.go:149-150 | for every dotted Shop name there is another Shop, no extension of it, all of whose listed Deployment pods are in the scope |
| MetricsScope.DotFreeExactlyWhen | internal/controller/shop_dashboard.go:148-151 | over all Shops, Deployment pods and migration pods X's name can be taken literally iff it has no dot |
| MetricsScope.NamesakeMigrationsAreReached | internal/controller/shop_controller.go:900-900 | every Shop X reaches the migration pods of the listed services of the Shop named shop-X |
| MetricsScope.NamesakeExample | internal/controller/shop_controller.go:900-900 | for instance a those of shop-a, whose name is no extension of a |
| ShopConfluence.Frame | internal/controller/shop_controller.go:191-283 | a step depends on nothing but the two objects it reads |
| ShopConfluence.StepIsIdempotent | internal/controller/shop_controller.go:424-470 | repeating any step on its own result changes nothing and recovers the same locals |
| ShopConfluence.ProgramIsSafe | internal/controller/shop_controller.go:191-283 | no later step of a reconcile writes what an earlier one reads |
| ShopConfluence.TableIsValid | internal/controller/shop_controller.go:67-75 | the microservice table meets the naming assumptions |
| ShopConfluence.RestartConfluence | internal/controller/shop_controller.go:191-283 | stopping after any prefix and running again in full ends in the cluster, locals and result of one uninterrupted run |
| ShopConfluence.FaultyIsPrefix | internal/controller/shop_controller.go:199-270 | whatever fails, the work done is that of some prefix, and without an error it is all of it |
| ShopConfluence.RetriesConverge | internal/controller/shop_controller.go:191-283 | any number of faulted reconciles and then one without faults end where one undisturbed reconcile would |
| ShopCommutation.InterleavingIsSequential | internal/controller/shop_controller.go:181-283 | every interleaving of two Shops' reconciles, with any faults, equals running one after the other |
| ShopCommutation.ShopsCommute | internal/controller/shop_controller.go:181-283 | for whole reconciles, in either order |
| ShopReadiness.ReadinessIsExact | internal/controller/shop_controller.go:234-282 | under any faults a reconcile stores a status iff its work met no error, a Shop is stored and the write is not refused; that status says Ready iff database, migrations and every Deployment were observed ready, and Available agrees and names the database state, whatever happens to the Ingress; without an error the requeue is 30 s, 15 s or none accordingly |
| ShopObservation.StatusReportsWhatWasSeen | internal/controller/shop_controller.go:222-282 | the same when every step sees the cluster at its own moment and others change it in between: Ready reports the database as the database step saw it, and each Job and Deployment as its own turn saw them |
| ShopObservation.AllServices | internal/controller/shop_controller.go:235-262 | for any list of microservices the loop ends ready iff it began ready and each turn saw its Job succeeded and, a step later, its Deployment rolled out |
| ShopReadiness.RunKeepsStatus | internal/controller/shop_controller.go:745-767 | under any faults a reconcile's own writes never change the replica, Job or database status it observes |
| ShopReadiness.IngressIsExact | internal/controller/shop_controller.go:264-270 | after any reconcile the Ingress is as the settings ask for iff it already was, or the status write was acknowledged, the Ingress call not refused and the Ingress nobody else's |
| ShopReadiness.ReadyWithoutIngress | internal/controller/shop_controller.go:264-270 | a reconcile that stores Ready=True leaves no such Ingress iff there was none and the status reply was lost, the Ingress call was refused, or somebody else owns it |
| ShopReadiness.ExpiredJobUnreadies | internal/controller/shop_controller.go:891-920 | when a finished migration Job expires, the next reconcile that stores a status stores Ready=False, and asks to be called in 15 s if it meets no error |
| ShopEndState.EveryStepIsSatisfied | internal/controller/shop_controller.go:191-283 | the final cluster of an error-free reconcile satisfies all its steps at once |
| ShopEndState.MicroservicesAsSpecified | internal/controller/shop_controller.go:728-884 | in the final cluster every microservice has a Deployment with the tier's replicas, the configured image and pull policy, the port and an environment that agrees with that cluster's Wallet and database tier, and a Service selecting its pods |
| ShopEnvironment.EnvironmentIsExact | internal/controller/shop_controller.go:802-858 | for every microservice and every variable name, the appended lists give what the per-variable tables say and set nothing else |
| ShopEnvironment.SecretReferences | internal/controller/shop_controller.go:843-855 | the database password is referred to in the four backends only, the access secret in auth and inventory only, the refresh secret in auth only, each under the Shop's own Secret and the right key |
| ShopEnvironment.PortReadsBack | internal/controller/shop_controller.go:809-809 | the port is printed in decimal without leading zeros and reads back as the port |
| ShopContents.DeployedEnvironmentIsExact | internal/controller/shop_controller.go:802-858 | in the final cluster every variable of every container is as the tables say, with the address that the Wallet of that cluster publishes |
| ShopContents.DeployedReferences | internal/controller/shop_controller.go:843-855 | in the final cluster the three kinds of references to Secrets are where they belong and nowhere else |
| ShopEndState.PayoutAgreesWithWallet | internal/controller/shop_controller.go:833-841 | in the final cluster the payment container, and no other, has the address its Wallet publishes |
| ShopEndState.ChildrenAsSpecified | internal/controller/shop_controller.go:945-1003 | Wallet and DiscordChannel belong to the Shop and carry its address, channel and server |
| ShopEndState.CredentialsExist | internal/controller/shop_controller.go:374-626 | the JWT Secret exists, and the tier's password Secret and database resource where their definition is installed |
| ShopContents.WrittenOnce | internal/controller/shop_controller.go:191-283 | every step finds its object as it was when the reconcile began, and the final cluster has it as that step left it |
| ShopContents.JwtSecretIsExact | internal/controller/shop_controller.go:374-409 | an existing JWT Secret is kept, and a new one holds generated values for access and refresh and nothing else |
| ShopContents.RedisSecretIsExact | internal/controller/shop_controller.go:603-626 | an existing Redis password Secret is kept, and a new one holds a generated password and nothing else |
| ShopContents.RedisIsExact | internal/controller/shop_controller.go:552-574 | an existing Redis resource is kept, and a new one has the configured image and the password of that Secret |
| ShopContents.PostgresIsExact | internal/controller/shop_controller.go:496-520 | an existing Postgres cluster is kept, and a new one has one instance with 1Gi |
| ShopContents.RedisPasswordIsShared | internal/controller/shop_controller.go:567-581 | a new Redis resource demands the very Secret and key with which every backend container logs in |
| ShopContents.ReferencesResolve | internal/controller/shop_controller.go:374-626 | after the first reconcile of a Shop every reference of every container to a Secret of the operator names one that exists and holds the value generated for that key |
| ShopContents.MonitoringIsFound | internal/controller/shop_controller.go:1024-1103 | in the final cluster dashboard, monitor and alert rules carry the labels by which Grafana and Prometheus find them, and the display name or else the Shop's own |
| ShopContents.SidecarsAreKept | internal/controller/shop_controller.go:745-770 | all containers but the first, and the fields of the first that the operator does not set, are as they were |
| ShopContents.StatusesAreKept | internal/controller/shop_controller.go:949-1003 | the status that their own controllers published on the Wallet and the DiscordChannel is as it was |
| ShopContents.TrafficIsKept | internal/controller/shop_controller.go:861-884 | Services keep their address, and the Ingress the annotations of others |
| ShopOwnership.ForeignObjectsAreKept | internal/controller/shop_controller.go:424-470 | whatever goes wrong in a reconcile, an object that another Shop controls is not changed, even under the name of one of this Shop's children |
| ShopOwnership.NotYetIsLeftAlone | internal/controller/shop_controller.go:687-726 | whatever goes wrong in a reconcile, nothing is written of a kind whose definition is missing, and no alert route while its webhook Secret is not seen |
| ShopOwnership.FailsExactlyWhen | internal/controller/shop_controller.go:191-283 | a reconcile reports an error iff one of the calls it has reason to make does not work, an object of another Shop is where it converges its own, or no Shop is stored; a missing definition, a database that is not ready and an unfinished migration are not errors |
| ShopEndState.DeployedCredentialsAreTheFirst | internal/controller/shop_controller.go:374-858 | with anything happening before and after an error-free reconcile, each Secret that a Deployment's environment names is the Shop's own and keeps the content it was first created with; those the operator creates exist |
| ShopEndState.AlertsAreDelivered | internal/controller/shop_alerts.go:61-195 | once the webhook Secret exists, both alerts are matched by a route that delivers through it |
| ShopEndState.MetricsAreScraped | internal/controller/shop_controller.go:1009-1077 | in the final cluster the ServiceMonitor scrapes a microservice's Service iff the microservice exposes metrics |
| ShopEndState.MigrationsAreStarted | internal/controller/shop_controller.go:235-243 | once the standard tier's database is observed ready, every service with migrations has a Job named after its current image |
| ShopOwnership.MigrationsWaitForDatabase | internal/controller/shop_controller.go:235-243 | under any faults, while the database is not observed ready, no migration Job of any service is created or changed |
| ShopContents.UnneededMigrationsAreLeftAlone | internal/controller/shop_controller.go:891-897 | under any faults, for a service without migrations or on a tier other than standard, the Job under any hash is the same before and after |
| ShopEndState.MigrationRunsTheServedImage | internal/controller/shop_controller.go:899-943 | a new migration Job belongs to the Shop, is labelled as its service's migration, and has the image and environment that the Deployment gets later in the same reconcile, and the Shop is not ready yet |
| ShopEndState.ServicesHavePaths | internal/controller/shop_controller.go:436-460 | every microservice with a path has an Ingress path, with the pattern that strips it, to its Service and port |
| ShopEndState.IngressReachesServices | internal/controller/shop_controller.go:411-479 | every path of the final Ingress leads to an existing Service of the Shop on that port |
| ShopWriteOnce.CredentialsAreWriteOnce | internal/controller/shop_controller.go:374-409 | over any steps of any reconciles, with stale views, tier switches and crashes, an existing Secret, database or Redis resource never changes |
| ShopWriteOnce.CredentialStepsOnlyCreate | internal/controller/shop_controller.go:687-726 | a step that targets a credential or database writes only where it saw nothing |
| ShopWriteOnce.RunIsEvents | internal/controller/shop_controller.go:191-283 | a reconcile is a sequence of the events over which credentials are write-once |
| ShopWriteOnce.ContainersReferToOwnSecrets | internal/controller/shop_controller.go:802-858 | the environment made for a container names no Secret but the JWT Secret and that of its own Shop's database tier |
| ShopWriteOnce.SecretsAreNotShared | internal/controller/shop_controller.go:342-355 | no Shop's container refers to another Shop's Secrets |
| ShopWriteOnce.PayoutReachesPaymentOnly | internal/controller/shop_controller.go:825-855 | SHOP_WALLET_ADDRESS is set in the payment container only |
| ShopWriteOnce.DeployPublishesWalletStatus | internal/controller/shop_controller.go:974-983 | one Deployment step puts the Wallet's current status address into the payment container |
| ShopWriteOnce.WalletStepHandsOver | internal/controller/shop_controller.go:949-964 | the Wallet step copies the Shop's address and leaves the published one alone |
| ShopReconciler.ShopReconciler.Reconcile | internal/controller/shop_controller.go:181-189 | a missing Shop needs nothing, a failed read is returned, otherwise the program runs on the spec that was read |
| ShopReconciler.ShopReconciler.ReconcileShop | internal/controller/shop_controller.go:191-283 | the method with its early returns has the effect and result of the step program under the same faults |
| ShopReconciler.ShopReconciler.ReconcileServices | internal/controller/shop_controller.go:234-262 | the loop over the microservices, the same |
| ShopReconciler.ShopReconciler.ReconcileMicroservice | internal/controller/shop_controller.go:236-261 | one turn of the loop, the same |
| ShopReconciler.ShopReconciler.FinishShop | internal/controller/shop_controller.go:264-282 | status, Ingress and requeue decision, the same |
| ShopReconciler.ShopReconciler.ReconcileDatabase | internal/controller/shop_controller.go:485-492 | tier choice, credentials, resource and observed state |
| ShopReconciler.ShopReconciler.ReconcilePostgres | internal/controller/shop_controller.go:496-535 | the Postgres tier |
| ShopReconciler.ShopReconciler.ReconcileRedis | internal/controller/shop_controller.go:541-598 | the Redis tier, readiness taken from the StatefulSet |
| ShopReconciler.ShopReconciler.ReconcileMigrationJob | internal/controller/shop_controller.go:891-915 | skipped, created and not done, or done iff succeeded |
| ShopReconciler.ShopReconciler.ReconcileDeployment | internal/controller/shop_controller.go:731-775 | converges the Deployment and returns it with its observed status |
| ShopReconciler.ShopReconciler.ShopAppEnv | internal/controller/shop_controller.go:802-858 | the environment appended service by service is the specified list, with the Wallet's current status address for payment |
| ShopReconciler.ShopReconciler.UpdateStatus | internal/controller/shop_controller.go:1109-1140 | replicas, Ready and the Available condition |
| ShopReconciler.ShopReconciler.MetricComponents | internal/controller/shop_controller.go:1012-1017 | the collected components are the services with metrics, in table order |
| ShopReconciler.ShopReconciler.ReconcileAlertmanagerConfig | internal/controller/shop_alerts.go:128-195 | nothing without the Secret or the definition, otherwise the Shop's own route |
| WalletController.PublishesValidOnly | internal/controller/wallet_controller.go:57-70 | a published address is the declared one and valid, or empty, with the matching Ready and reason |
| WalletController.WalletReconciler.Reconcile | internal/controller/wallet_controller.go:49-96 | a missing Wallet needs nothing, a failed read or status write is an error, and a write that takes effect stores the verdict on the spec |
| PayoutPipeline.StepKeeps | internal/controller/shop_controller.go:949-983 | no step, edit, event, failure or restart loses work: what is wrong is queued, running, or waiting to be delivered |
| PayoutPipeline.CorrectAtRest | internal/controller/shop_controller.go:949-983 | at rest the payment service has the Shop's address if valid and "" otherwise, iff the last lookup did not fail or there is nothing to deliver; the Wallet agrees in any case |
| PayoutPipeline.WrongMeansBusy | internal/controller/shop_controller.go:1155-1164 | while the payment service is wrong and no lookup failed, the system is not at rest |
| PayoutPipeline.PayoutIsSafe | internal/controller/wallet_controller.go:57-95 | in every reachable state without outside tampering both published addresses are "" or a valid address that was a Wallet spec before |
| PayoutProgress.RestIsReachable | internal/controller/shop_controller.go:972-983 | from every reachable state there is an undisturbed run to rest with the right address |
| PayoutTermination.LeftAloneItComesToRest | internal/controller/shop_controller.go:972-983 | whatever the order of deliveries and steps, an undisturbed run from a reachable state is no longer than a bound known at its start plus six steps per write conflict, and where it can go no further it is at rest with the right address iff the last lookup did not fail or there is nothing to deliver |
| PayoutTermination.StuckIsRest | internal/controller/shop_controller.go:1155-1164 | nothing is left to do exactly at rest |
| PayoutTermination.ConflictsAreOutdated | internal/controller/shop_controller.go:957-962 | a write conflict comes of a version that is no longer the latest |
| Projections.CommittedIsDo | internal/controller/shop_controller.go:191-283 | on a fresh view a committed step is the step of the Shop program |
| Projections.LookIsRead | internal/controller/shop_controller.go:974-983 | the pipeline's lookup yields what the program's Deployment step reads |
| Projections.HandIsWalletStep | internal/controller/shop_controller.go:949-964 | the pipeline's hand-over is the Shop program's Wallet step, decided on a possibly old view and committed under optimistic locking |
| Projections.DeployIsDeployStep | internal/controller/shop_controller.go:731-775 | and its Deployment write is the program's payment Deployment step |
| Projections.WriteIsRoutingStep | internal/controller/shop_alerts.go:128-195 | and the alert route is written, or left, by the program's routing step |
| PayoutProgress.FailedLookupIsForgotten | internal/controller/shop_controller.go:977-981 | for any valid address there is a state at rest in which the payment service has none |
| AlertRouting.StepKeeps | internal/controller/shop_controller.go:1155-1164 | a route exists iff a completed lookup came after the Secret reached the cache, and after the last version's arrival a lookup is done, under way or queued |
| AlertRouting.RoutedAtRest | internal/controller/shop_alerts.go:128-186 | at rest with a stored webhook id the route to the other controller's Secret exists iff the Secret reached the cache before the last completed lookup, for which it suffices that it arrived before the last version did |
| AlertRouting.OrderedEventsRoute | internal/controller/shop_alerts.go:122-139 | if the caches learn of the Secret before any later version of the DiscordChannel, rest with a stored webhook id means that the alerts are routed |
| AlertRouting.RouteIsReachable | internal/controller/shop_alerts.go:122-186 | from every reachable state of an undeleted object there is an undisturbed run of both controllers to rest with the alerts routed |
| AlertRouting.LateSecretLeavesAlertsUnrouted | internal/controller/shop_alerts.go:122-139 | for every run of the DiscordChannel controller that rests with a stored webhook id there is one of both that rests, with everything delivered, and no route |
| AlertRouting.LateSecretExample | internal/controller/shop_alerts.go:122-139 | and there is such a run |

## Left out

- ChannelTheorems.AtMostOneChannel: needs that no reconcile is between create and status write, because two overlapping ones can each hold a channel; `ChannelAccounting` gives the exact count in every other state.
- MetricsScope.ScopeExactly: assumes that what is generated (pod suffixes and image hashes) has no segment equal to a backend's name, and does not model the shortening of long pod names.
- ChannelName.Sanitize: lower-casing is modelled for A-Z and the two other letters whose lower case is ASCII; all other letters are removed whatever their lower case is.
- PayoutPipeline.CorrectAtRest: a Shop that is being deleted is not modelled, nor is garbage collection.
- AlertRouting.RoutedAtRest: assumes that the AlertmanagerConfig definition is installed and that nobody deletes the routing object.
- ShopWriteOnce.CredentialsAreWriteOnce: others may create credentials but not change or delete existing ones.
- ShopConfluence.RestartConfluence: the environment, including the status fields of other controllers, is frozen between the two reconciles, and passwords are a function of Secret and key.
- ShopReconciler.ShopReconciler.CreateOrUpdate: one step stands for the read and the write, since a conflicting write in between is an error and starts the reconcile again.
- HTTP requests, JSON encoding, headers and timeouts of the Discord client; only success, failure, lost replies and status codes remain.
- The body of the Grafana dashboard, the text of alert expressions other than the pod pattern, annotations, and condition messages, timestamps and observed generations.
- What nginx makes of the Ingress paths; the Ingress is one more object with paths to Services.
- Randomness, SHA-256 and the clock: passwords and hashes come from given functions, and the Job's time to live is an action of the environment.
- Creation of a new DiscordChannel with the name of a removed one, and Secrets deleted or edited by hand.
- Start-up, flags, leader election, scheme and CRD generation, RBAC and kustomize files.
- ShopReconciler.ShopReconciler.PayoutAddress: a lookup that fails silently is modelled in the payout pipeline only; in the Shop's step program the lookup works.
- Two Shops reconciled on old views at the same time: commutation is for steps on the current cluster, stale views are covered by `CredentialsAreWriteOnce` and the pipeline.
