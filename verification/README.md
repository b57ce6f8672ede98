# A verified model of mcphost

mcphost is a multi-tenant MCP server. These Dafny modules model the parts of it that are
protocols, state machines, printers and parsers, and prove what they promise, for every
input, every run and every interleaving.

| module | what it models |
|---|---|
| `AskWake` | waiters and answering handlers of `host.ask.wait` around a shared map of notifiers; every lock-protected section, database call and await point is one step |
| `AskStore` | the ask tables: pending, then answered or expired, once; the event log; the open ceiling; pruning |
| `OauthGrants` | codes, grants, refresh tokens and access tokens, one request at a time, storage succeeding |
| `OauthClaims` | the same requests interleaved between any two storage statements, failing anywhere, for the at-most-once claims |
| `Json` | the canonical JSON printer (RFC 8259, integers only) and a reader that inverts it |
| `AuditChain` | the hash chain of the audit export and the independent verifier of the exported text |
| `Csv` | the CSV printer and a strict reader of RFC 4180 section 2 |
| `Der` | the DER form of a fixed-width signature and a strict DER reader |
| `ContractDiff` | the contract checker, against what a schema accepts |
| `SchemaContainment` | when one schema accepts all that another does, decided from the two, and what that makes of an empty report |
| `ZipDirectory` | the zip directory reader, against a writer of PKWARE APPNOTE 4.3.12 and 4.3.16 |
| `ArchiveCheck` | what an uploaded archive must look like, over the directory the zip reader lists |
| `Base64` | the published base64 pattern, against RFC 4648 sections 3.5 and 4 |
| `BlobQuota` | stored files and the three ceilings of a plan |
| `Budget` | a run's ledger, verdict, requested limits and single alert |
| `AlertWindows` | collapsed alerts, the sliding trip window, the contention latch |
| `Delegation` | delegated keys |
| `Wrappers` | options, results, bytes, and what it is to pick elements out of a sequence in order |

Code that changes things step by step is a class or a method with loops, proved equal to a
function of the state before; what the system promises is then proved about those functions,
over whole runs. The digest, the JSON library, equality and order of values of the verifier, the clock, generated names,
plans and policies are parameters. Nothing is assumed about the digest but its length:
where tamper evidence would rest on it, the statement is "the same rows, or these two texts
collide".

## What turned out not to hold

Each of these is stated with the schedule or input that shows it, next to exactly when the
code does meet the property.

- An entry of the notifier's map can outlive its holders. A waiter whose request goes away
  while it reads or sleeps never releases (`AskWake.CancelLeavesEntry`), and two waiters that
  release together both count the other, because the reference is dropped only after the lock
  is let go (`AskWake.DeadlinesLeaveEntry`). Exactly when, in every run:
  `AskWake.LeftBehindIff`.
- After an answer, a waiter of the old notifier can take away the entry a new waiter has just
  made: `AskWake.StaleReleaseRun`, against `AskWake.StaleReleaseIff` (never before the answer).
- Touching a lapsed file brings it back without looking at the ceilings:
  `BlobQuota.RevivalOverruns`, against `BlobQuota.TouchKeepsIff` and, for whole runs,
  `BlobQuota.CeilingsHoldIff`.
- The version a put sets aside does not count against that put, so files and kept versions
  together can pass the byte ceiling: `BlobQuota.KeptVersionOverruns`, against
  `BlobQuota.PutWithinTotalIff` and, for whole runs, `BlobQuota.TotalHoldsIff`.
- An empty contract report does not keep every caller: a newly required argument that was
  never declared (`ContractDiff.NewDemandBreaksAll`), a type put where there was none
  (`ContractDiff.TypeAddedUnseen`), and inside an argument a member newly required
  (`ContractDiff.NestedDemandUnseen`) or of another type
  (`SchemaContainment.NestedTypeUnseen`, for every pair of types) go unreported. Exactly when callers are kept, decided
  from the schemas at every depth: `SchemaContainment.CallersKeptIff`.
- A zip comment that is itself an end record is taken for the archive's own:
  `ZipDirectory.CommentTakenForEnd`, against `ZipDirectory.ListsWhatWasWritten`.
- The DER printer writes lengths as one byte, so a reader gets the numbers back only while
  the body is shorter than 128 bytes (always, for P-256): `Der.DerReadsBack`, `Der.FitsP256`.

## Model

| member | source | states |
|---|---|---|
| AskWake.Registry.Obtain | src/asks.rs:92-96 | an ask has one notifier: the one in the map, or a new one entered on the spot |
| AskWake.Registry.Unhook | src/asks.rs:98-103 | waking takes the entry out of the map and hands over the notifier that was there |
| AskWake.Registry.Release | src/asks.rs:105-112 | the lock-protected section: at a count of two or less the entry goes; what that count means is `AskWake.ReleaseForgetsIff` and `AskWake.StaleReleaseIff` |
| AskWake.NoLostWakeUp | src/asks.rs:414-440 | in every interleaving, a waiter in the loop of a still unanswered ask holds the notifier the answering handler will find, and once that handler has replied no waiter of the ask is asleep, or bound to sleep, without its permit |
| AskWake.WokenWaiterReturns | src/asks.rs:374-440 | from then on a waiter of the ask is never stuck and returns within six steps of its own, however the others run |
| AskWake.NotifyReaches | src/asks.rs:98-103 | notifying gives a permit to every waiter of the notifier taken out that has armed its future, and touches nobody else |
| AskWake.ReleaseForgetsIff | src/asks.rs:105-112 | in every reachable state in which no handler has yet taken the entry out, a release forgets it if and only if nobody else holds it |
| AskWake.StaleReleaseIff | src/asks.rs:105-112 | in every reachable state, a release forgets an entry another waiter holds if and only if two or fewer still hold its own, older notifier, and that happens only once the ask is answered |
| AskWake.StaleReleaseRun | src/asks.rs:105-112 | a run from the start of the process in which that happens |
| AskWake.LeftBehindIff | src/asks.rs:374-440 | in every run, an entry nobody holds is in the map if and only if its last holder left by its request going away, or after a release that still counted another reference, and nothing has taken the entry out or obtained it since |
| AskWake.RunHasTrace | src/asks.rs:92-112 | every run has the trace of states the last result speaks of |
| AskWake.CancelLeavesEntry | src/asks.rs:421-438 | from every start of the process, three steps that leave an entry behind |
| AskWake.DeadlinesLeaveEntry | src/asks.rs:374-440 | from every start of the process with the ask pending, two deadlines and two late drops that do |
| AskWake.LateDropKeepsEntry | src/asks.rs:105-112 | two waiters releasing before either drops its reference leave an entry nobody holds |
| AskWake.EarlyDropForgetsEntry | src/asks.rs:105-112 | with the first reference dropped before the second release, the entry goes |
| AskStore.AskStore.ExpireDue | src/asks.rs:156-174 | exactly the pending asks that are due become expired, each with one event stamped at its expiry; every row keeps its log |
| AskStore.AskStore.PruneOld | src/asks.rs:506-512 | asks past retention go together with their events, and nothing else does |
| AskStore.AskStore.Create | src/asks.rs:276-316 | a new ask is accepted exactly when the tenant's asks still open after expiring and pruning are below the ceiling |
| AskStore.AskStore.RecordClientElicit | src/asks.rs:334-365 | a question the client answered itself is recorded as answered, with both its events |
| AskStore.AskStore.Find | src/asks.rs:177-190 | reading expires what is due first and then shows the row |
| AskStore.AskStore.RecordAnswer | src/asks.rs:596-621 | an answer is recorded only on a pending, unexpired ask; a later one gets the recorded choice and moment |
| AskStore.FirstAnswerWins | src/asks.rs:596-621 | over any run, of all replies for an ask that name a choice only the first is "recorded", and all name the same choice at the same moment |
| AskStore.LogsMatchRows | src/asks.rs:156-174 | over any run every row has exactly the log its status calls for (created, then at most one terminal event, expired stamped at expiry) and no event lacks its row |
| AskStore.OpenCeilingHolds | src/asks.rs:288-316 | over any run no tenant has more pending asks than its plan allows |
| AskStore.DecidedForGood | src/asks.rs:596-621 | a decided ask keeps its row and log until it is pruned, and an id that is gone never comes back |
| AskStore.PruneSparesPending | src/asks.rs:506-512 | pruning, run after expiring, removes an ask exactly when its expiry is older than the retention time, and never a pending one |
| AskStore.AnswerIff | src/asks.rs:596-621 | after any run, an answer is recorded if and only if its ask is there, pending and not yet due, and then the row holds the choice and the moment and the log has gained just that event; an ask answered before gets its own choice and moment, any other is gone; every other ask is only settled |
| AskStore.CreateIff | src/asks.rs:276-316 | after any run, a new ask is taken if and only if fewer of its tenant's than the ceiling are pending and not yet due; it is there with its one event, the others are settled, and exactly those past thirty days are gone |
| AskStore.ElicitIs | src/asks.rs:334-365 | a question the client answered itself is there, decided, with both its events, and every other ask is as it was |
| AskStore.ReadsSettled | src/asks.rs:156-190 | reading expires exactly the pending asks that are due, each with its event, and removes none |
| OauthGrants.OauthServer.RevokeAndDeny | src/authz.rs:1744-1751 | the grant is revoked, all its access tokens are denied and all its refresh tokens retired, each keeping an earlier stamp |
| OauthGrants.OauthServer.ClaimCode | src/db.rs:23217-23229 | the guarded update succeeds once for each code |
| OauthGrants.OauthServer.ClaimRefresh | src/db.rs:23498-23512 | the guarded rotation succeeds once for each refresh token |
| OauthGrants.OauthServer.IssueTokens | src/authz.rs:1582-1655 | a mint records its access token, and its refresh token when one is wanted, under the grant and the resource |
| OauthGrants.OauthServer.TokenAuthorizationCode | src/authz.rs:1726-1826 | redeeming a code, with every refusal in the source's order and the replay that revokes the family |
| OauthGrants.OauthServer.TokenRefreshToken | src/authz.rs:1830-1922 | refreshing, with every refusal in order and the reuse that revokes the family |
| OauthGrants.OauthServer.TokenJwtBearer | src/assertion.rs:131-212 | the assertion's time checks with their skews, its missing or empty claims, the claim of its jti, and the mint, in order |
| OauthGrants.OauthServer.GrantRevoke | src/authz.rs:2102-2119 | a tenant revokes its own unrevoked grant with its tokens; that it reaches nothing else is `OauthGrants.RevocationReachesOne` |
| OauthGrants.OauthServer.PostRevoke | src/authz.rs:2151-2161 | revoking a known refresh token revokes its grant; what that means for the whole grant is `OauthGrants.RevokedOnceAsked` |
| OauthGrants.OauthServer.ValidateHostedBearer | src/authz.rs:1991-2035 | what a signed access token is worth against the tables |
| OauthGrants.BearerLivesWithGrant | src/authz.rs:1991-2035 | over any run, every access token ever signed is accepted if and only if its grant is not revoked and it has not expired, and then speaks for the grant's tenant and scope |
| OauthGrants.FamilyKeepsConsent | src/authz.rs:1808-1825 | everything a redeemed code's family ever mints carries the tenant, client, resource and scope consented to |
| OauthGrants.FamilyIsLinear | src/authz.rs:1839-1844 | until it is revoked such a family has exactly one refresh token that is not rotated, and presenting any other it ever had revokes it |
| OauthGrants.RedeemsAsConsented | src/authz.rs:1739-1803 | however long after the consent, redeeming a code mints if and only if it was never used, has not expired, and client, redirect URI, verifier and resource are those it was made for |
| OauthGrants.RefreshesIff | src/authz.rs:1839-1920 | refreshing mints if and only if the token is unrotated and unexpired and its grant is neither revoked nor too old |
| OauthGrants.AssertsIff | src/assertion.rs:131-212 | after any run, an assertion mints if and only if it is authentic, not expired, not of the future (five minutes to spare each), named, its subject is not revoked, and no earlier request presented one of its issuer and jti that could be taken |
| OauthGrants.AssertRecords | src/assertion.rs:188-212 | it then founds one grant with just its tenant, client, resource and scope, one access token with the policy's lifetime, and a refresh token if and only if it asks for offline use; one that does not mint leaves grants and tokens alone |
| OauthGrants.RedeemRecords | src/authz.rs:1801-1826 | a code that mints is used up for one grant, one access token and one refresh token, each with its own lifetime, and nothing else changes |
| OauthGrants.RefreshRecords | src/authz.rs:1918-1922 | a refresh that mints retires the token presented and records its successor and an access token under the same grant, and nothing else changes |
| OauthGrants.RedeemRefusedFor | src/authz.rs:1726-1803 | a code is refused for a fault, and for the first one in the source's order |
| OauthGrants.RefreshRefusedFor | src/authz.rs:1830-1920 | so is a refresh token |
| OauthGrants.AssertRefusedFor | src/assertion.rs:131-190 | so is an assertion, after any run |
| OauthGrants.CodeLastsAMinute | src/authz.rs:1019 | whatever happens between consent and redeeming, no code mints more than a minute after it |
| OauthGrants.BearerIff | src/authz.rs:1991-2035 | any claims are accepted if and only if they have not expired (a minute to spare), are recorded and not denied, and are meant for the resource recorded |
| OauthGrants.RevokedForGood | src/authz.rs:1744-1751 | once revoked, a grant never changes again and nothing is minted for it |
| OauthGrants.RevokedRowsFinal | src/authz.rs:1744-1751 | and its tokens keep every stamp they have |
| OauthGrants.RevocationStamps | src/authz.rs:1744-1751 | revoking stamps the grant, its access tokens and its refresh tokens, each unless it was before |
| OauthGrants.TenantRevokesIff | src/authz.rs:2102-2119 | a tenant is told that it revoked a grant if and only if the grant is its own and was not revoked before; otherwise nothing changes |
| OauthGrants.RevokedMeansRefused | src/authz.rs:2006-2013 | and from then on every access token it ever had is refused at any time, and every refresh token of it |
| OauthGrants.RequestRevokes | src/authz.rs:1744-1751 | the replay of a used code, the reuse of a rotated refresh token, the revocation of any refresh token and the owner's revocation each leave the grant revoked |
| OauthGrants.RevokedOnceAsked | src/authz.rs:2151-2161 | after any of the four, at whatever point of whatever run, every access token the grant ever had is refused, no refresh token of it works, and nothing is added to it |
| OauthGrants.RevocationReachesOne | src/authz.rs:2102-2119 | a revocation changes no other grant and no token of another, and none at all of another tenant's grant or for an unknown token |
| OauthClaims.AtMostOnce | src/authz.rs:1801-1825 | with requests interleaved between any two statements and failing anywhere, a code or an assertion founds at most one grant, and any credential yields at most one access token and one refresh token |
| OauthClaims.UndisturbedMints | src/authz.rs:1801-1825 | at whatever point, a request with an unclaimed credential that runs undisturbed uses it up for exactly one access token and one refresh token, of a new grant or of the refresh token's own |
| OauthClaims.ReplayRetires | src/authz.rs:1839-1844 | one that presents a used code or refresh token retires every token of its grant and mints nothing |
| OauthClaims.ConsentOffers | src/authz.rs:1150-1175 | a consent offers an unclaimed code and changes nothing else |
| OauthClaims.FailedIsOver | src/authz.rs:1801-1825 | a request that failed does nothing more |
| Json.ParseCanon | src/audit_export.rs:120-138 | reading a canonical text back gives exactly the value it was printed from |
| Json.CanonInjective | src/audit_export.rs:120-138 | two values have one canonical text only if they are equal |
| Json.CanonPrintable | src/audit_export.rs:120-138 | a canonical text holds no line break and no other raw control character |
| Json.EscapeIs | src/audit_export.rs:120-138 | a character stands for itself or is escaped in the shortest way RFC 8259 section 7 has, its number in small letters where it has none |
| Json.LessIff | src/audit_export.rs:124-128 | keys are sorted by their first difference, a key before any it begins |
| Json.CanonicalIsCanon | src/audit_export.rs:124-138 | the printer, which collects and sorts the keys as inserted, prints the canonical form of what the value means |
| Json.CanonicalSameIff | src/audit_export.rs:116-138 | two values print the same text if and only if they mean the same, whatever order their keys were inserted in |
| AuditChain.ChainWith | src/audit_export.rs:142-153 | each line's hash is the digest of the line before it followed by its own canonical body |
| AuditChain.RenderJsonl | src/audit_export.rs:255-262 | the exported text is header, lines and trailer, each canonical and on a line of its own |
| AuditChain.Verify | scripts/audit-verify.py:68-98 | the verifier's verdict for any text: the first line that breaks the chain, the signature, or the number of rows and the root |
| AuditChain.SoundToolsExist | scripts/audit-verify.py:29-30 | what the results ask of the verifier's JSON library, digest and key comparison can be met, by the reader and the printer proved inverse here, however keys of other types compare |
| AuditChain.VerifierAcceptsExport | scripts/audit-verify.py:68-98 | whatever rows the host exports in their order, with a signature that checks, the verifier accepts and reports their number and root |
| AuditChain.AcceptedIff | scripts/audit-verify.py:68-98 | a text is accepted with n rows and a root if and only if its ends are objects, the n lines between continue the chain from the genesis to the root in order, the last line tells that root and number, both ends name one key and the signature over root and number is that key's |
| AuditChain.VerdictIff | scripts/audit-verify.py:68-98 | and so each other verdict: the signature alone at fault, the trailer, or the first line that does not continue the chain |
| AuditChain.LinesAre | scripts/audit-verify.py:70-72 | a text is cut into its lines whether or not the last one is ended |
| AuditChain.KeyOrder | src/audit_export.rs:140-141 | rows are ordered by time, then table, then id, strictly |
| AuditChain.AcceptedIsChained | scripts/audit-verify.py:68-98 | whatever text is accepted, its rows are as many as reported, none before the one above as far as their keys of whatever type compare, and chained from the genesis to the reported root |
| AuditChain.TamperEvident | scripts/audit-verify.py:68-98 | two accepted texts with one root and one number of rows hold the same rows in the same order, or the lines at some place are a digest collision |
| AuditChain.RootPinsRows | src/audit_export.rs:319-336 | a window recomputed later has the stored root and row count only if it holds the same rows, or two lines collide |
| Csv.PushField | src/calllog.rs:377-385 | a field is appended as it is, or quoted with its quotes doubled, and the buffer before it is untouched |
| Csv.PushRecord | src/audit_export.rs:276-284 | cells separated by commas and ended by a line feed |
| Csv.ReadCsvBack | src/calllog.rs:377-407 | an RFC 4180 reader gives back exactly the cells printed, for all strings |
| Csv.RenderAuditCsv | src/audit_export.rs:271-315 | the audit CSV is the header, one record a line and the trailer record |
| Csv.LineUnderNames | src/audit_export.rs:271-300 | every field of a line stands under its own column name |
| Csv.TrailerUnderNames | src/audit_export.rs:301-314 | and the trailer under the table, its row count under the id, root, signature and key under theirs |
| Csv.SameCsvIff | src/audit_export.rs:271-315 | two audit CSVs are the same text if and only if they hold the same lines and the same trailer |
| Der.Print | src/calllog.rs:411-429 | the loops print the DER form of the two halves |
| Der.DerReadsBack | src/calllog.rs:411-429 | a strict DER reader gets back exactly the two halves' numbers if and only if the body is shorter than 128 bytes |
| Der.FitsP256 | src/calllog.rs:411-429 | it is, for every signature of up to 120 bytes |
| ContractDiff.CheckRemoved | src/api_contract.rs:661-682 | a removal is excused only by the first entry announced early enough, and only from its sunset on |
| ContractDiff.CheckNarrowed | src/api_contract.rs:691-707 | a narrowing is excused by any entry announced early enough |
| ContractDiff.DiffProperties | src/api_contract.rs:812-853 | the findings on a tool's arguments, in order, after those already there |
| ContractDiff.DiffOutputProperties | src/api_contract.rs:864-918 | the findings on a tool's results, with variants and opaque roots |
| ContractDiff.Diff | src/api_contract.rs:980-1019 | the findings on a whole contract |
| ContractDiff.RemovalReported | src/api_contract.rs:661-682 | for every ledger and date, a removal goes unreported if and only if some entry announced it at least sixty days ahead and the first such one's sunset has come; otherwise it is the one finding, before its sunset or unannounced |
| ContractDiff.NarrowingReported | src/api_contract.rs:691-707 | a narrowing goes unreported if and only if some entry announced it at least sixty days ahead |
| ContractDiff.ChangeIff | src/api_contract.rs:733-807 | an argument is reported for the first of the changes it went through, in the source's order, and only for a change |
| ContractDiff.ReportedIff | src/api_contract.rs:980-1019 | for every ledger and date, the whole report holds a finding if and only if it is a tool's own removal, or what has become of one of its arguments or of a key of its results |
| ContractDiff.MissingArgumentReported | src/api_contract.rs:812-853 | an argument the live tool lacks is in the report unless its removal was announced and the sunset has come |
| ContractDiff.OpaqueReported | src/api_contract.rs:894-918 | exactly the keys an opaque root no longer types are named, in one finding, and there is none without any |
| ContractDiff.PromisedIff | src/output_schemas.rs:268-280 | a key is promised of every live result if the results' own required list has it, or, where there is none, the first variant's |
| ContractDiff.CallsKeptIff | src/api_contract.rs:812-853 | with nothing reported, every call valid before that passes declared arguments stays valid if and only if no new argument is demanded and each declared argument keeps its values |
| ContractDiff.NewDemandBreaksAll | src/api_contract.rs:831-850 | a newly required argument that was never declared is refused to every old caller, and goes unreported |
| ContractDiff.FlatKeptIff | src/api_contract.rs:764-791 | an argument without members, with no reason against it, keeps its values if and only if a type put where there was none covers them |
| SchemaContainment.SatisfiableIff | src/api_contract.rs:755-791 | whether a schema accepts anything, and any object, is decided by its keywords |
| SchemaContainment.ContainedIff | src/api_contract.rs:755-791 | one schema accepts all another does if and only if, read off the two at every depth, an enum passes value by value, or the kinds are covered (whole and other numbers told apart), no number is cut off by the maximum, a new enum lists finite kinds, no member is newly demanded and every member is contained; whatever the checker said |
| SchemaContainment.ToolKeptIff | src/api_contract.rs:812-853 | with nothing reported on a tool's arguments, every old call stays valid if and only if its two schemas say so in that way |
| SchemaContainment.CallersKeptIff | src/api_contract.rs:980-1019 | after an empty report on a whole contract, every old caller is kept if and only if the schemas, side by side, say so |
| SchemaContainment.NestedTypeUnseen | src/api_contract.rs:733-753 | whatever type a member of an argument goes to, nothing is reported, and old calls are kept if and only if it is the same type, or number for integer |
| ContractDiff.CallersUnbroken | src/api_contract.rs:980-1019 | an empty report on a whole contract keeps every tool and every such call working, nested fields changing in their maximum only |
| ContractDiff.ResultsKeepPromises | src/api_contract.rs:864-918 | an empty report keeps what every live result carried, unless it moved into a variant, and every type named |
| ContractDiff.LaterFindings | src/api_contract.rs:661-707 | the clock only closes findings: a later report is the earlier one without the removals whose sunset has come |
| ContractDiff.GrowthReportsNothing | src/api_contract.rs:972-980 | a contract that only gained tools and optional arguments, or did not change, is reported clean |
| ContractDiff.TypeAddedUnseen | src/api_contract.rs:768-772 | a type put on an untyped argument goes unreported and refuses old calls |
| ContractDiff.NestedDemandUnseen | src/api_contract.rs:733-753 | so does a member newly required inside an argument |
| ContractDiff.TwoStepsUnseen | src/api_contract.rs:768-772 | a type change reported in one step goes unreported in two |
| ZipDirectory.ListZip | src/blobs.rs:314-341 | on any bytes: no record is found exactly when the window holds no signature, and otherwise the last one's directory is listed, every read in bounds |
| ZipDirectory.ListEntries | src/blobs.rs:325-340 | the loop over the headers, with each way a header can be refused |
| ZipDirectory.ListedIff | src/blobs.rs:314-341 | on any bytes: a listing succeeds if and only if the headers the last end record tells of stand one behind the other from where it tells, and fails for lack of a record, for a record cut short, or for what is wrong behind the headers that do stand |
| ZipDirectory.EntriesIff | src/blobs.rs:325-340 | the loop over the headers, likewise |
| ZipDirectory.HeaderIff | src/blobs.rs:326-338 | one header, byte for byte, and each way it fails |
| ZipDirectory.ListsWhatWasWritten | src/blobs.rs:314-341 | the written end record is taken for the end if and only if no signature follows it, and then the reader returns exactly the written names and sizes in order |
| ZipDirectory.NoCommentNoLaterEnd | src/blobs.rs:317-321 | for an archive without a comment nothing can follow |
| ZipDirectory.EndIff | src/blobs.rs:317-321 | the record taken for the end is the last signature at least 22 bytes and at most those and 65535 more before the data ends |
| ZipDirectory.CommentTakenForEnd | src/blobs.rs:317-321 | whatever was written, with a comment that is itself an end record the reader returns an empty list |
| ArchiveCheck.CheckArchive | src/blobs.rs:462-500 | for any bytes, an archive passes if and only if its directory can be read, no entry leaves the root or is an archive, the sizes declared stay within ratio and ceiling, and in a plain zip every file is of an accepted type; the refusal names the first entry at fault, in the order of the checks |
| ArchiveCheck.CheckEntries | src/blobs.rs:468-499 | the same over the entries |
| ArchiveCheck.CheckPaths | src/blobs.rs:468-475 | the first entry that leaves the root, or the exact sum of the declared sizes, which never saturates |
| ArchiveCheck.CheckNesting | src/blobs.rs:476-481 | the first entry that is itself an archive |
| ArchiveCheck.CheckTypes | src/blobs.rs:491-498 | the first file of a type outside the list |
| ArchiveCheck.ListingBounds | src/blobs.rs:462-475 | what the zip reader lists is small enough that the 64-bit sum of sizes is exact |
| ArchiveCheck.PassedLandsBelow | src/blobs.rs:469-473 | wherever an archive that passed is unpacked, each entry lands at its own names below that place, with either kind of slash |
| ArchiveCheck.ClimbingRefused | src/blobs.rs:469-473 | a path that climbs from any place above it is refused |
| ArchiveCheck.EscapesIff | src/blobs.rs:469-473 | a path is refused if and only if it starts with a slash of either kind or has two dots alone between slashes or ends |
| ArchiveCheck.NestedIff | src/blobs.rs:476-481 | a name is an archive's if and only if it ends in ".zip", in letters of either size |
| ArchiveCheck.AdmissibleIff | src/blobs.rs:468-499 | entries pass if and only if none leaves the root or is an archive, they declare at most a hundred times the archive and at most the ceiling, and in a plain zip every file has a known, accepted type |
| ArchiveCheck.FilesIs | src/blobs.rs:485-500 | the files counted are the entries that are no directories |
| ArchiveCheck.DeclaredIs | src/blobs.rs:468-475 | what is declared is the sum over the entries |
| Base64.PatternIsDecodable | src/blobs.rs:838-847 | a text matches the pattern if and only if it decodes, if and only if it encodes some bytes, and then only those |
| Base64.DecodeEncode | src/blobs.rs:844-847 | decoding inverts encoding |
| Base64.EncodeDecode | src/blobs.rs:844-847 | what decodes is the encoding of what it decodes to |
| Base64.SymbolIs | src/blobs.rs:838-847 | the alphabet is that of RFC 4648, table 1 |
| BlobQuota.BlobStore.SetExpiry | src/db.rs:19530-19543 | the one row of the id gets the expiry, all else stays |
| BlobQuota.BlobStore.UpsertRow | src/db.rs:19442-19507 | a name's row is replaced in place under its id with the version moved on, the old version kept when the policy says so |
| BlobQuota.BlobStore.PutBlob | src/blobs.rs:1019-1121 | storing a file, with the same-bytes case and every refusal in order |
| BlobQuota.BlobStore.TouchBlob | src/blobs.rs:1291-1300 | a touch sets the expiry, of a lapsed row too |
| BlobQuota.BlobStore.DeleteBlob | src/blobs.rs:1278-1287 | the row goes with all its versions |
| BlobQuota.BlobStore.PurgeLapsed | src/retention.rs:456-525 | exactly the lapsed rows go with all their versions, and then the versions that aged out |
| BlobQuota.CeilingsHoldIff | src/blobs.rs:1031-1067 | a run stays within all three ceilings throughout if and only if every touch in it finds its file live, or room for it to come back |
| BlobQuota.TouchKeepsIff | src/blobs.rs:1291-1300 | a touch keeps the ceilings if and only if the file had not lapsed or there is room for it to come back |
| BlobQuota.RevivalOverruns | src/blobs.rs:1291-1300 | four operations that put a tenant over its ceiling |
| BlobQuota.NamesStayUnique | src/db.rs:19442-19507 | in every run a name holds one file and an id stands for one file |
| BlobQuota.PutStores | src/blobs.rs:1041-1121 | what is stored is there under its name with the expiry asked for, no other file has changed, and a refusal changes nothing |
| BlobQuota.PutNewIff | src/blobs.rs:1031-1121 | bytes under a new name become a row at the end, at version one with the expiry asked for or the policy's, if and only if nothing is in the way, and otherwise the refusal names the first thing that is |
| BlobQuota.PutOverIff | src/blobs.rs:1031-1121 | bytes under a name there is take the row over, under its id and next version, likewise; the very same bytes while they live move only the expiry |
| BlobQuota.TouchIff | src/blobs.rs:1291-1300 | a touch moves the expiry of the one file of that id and nothing else |
| BlobQuota.DeleteIff | src/blobs.rs:1278-1287 | a file is deleted if and only if there is one of that id: its row and all its versions are gone, every other row and version is there, in order |
| BlobQuota.PurgeIs | src/retention.rs:456-525 | purging leaves, in order, exactly the rows whose time has not come and the versions whose own has not, of no file whose has |
| BlobQuota.ArchivedSum | src/db.rs:19459-19482 | setting a version aside adds its bytes while it is live and frees exactly those of the versions that go |
| BlobQuota.PutWithinTotalIff | src/blobs.rs:1055-1067 | under every policy, new bytes leave files and kept versions together within the byte ceiling if and only if they replace nothing, nothing is kept, or everything but what goes has room beside them |
| BlobQuota.TotalHoldsIff | src/blobs.rs:1031-1121 | a run keeps files and kept versions together within the byte ceiling throughout if and only if every such put and every revival in it has room |
| BlobQuota.KeptVersionOverruns | src/db.rs:19459-19482 | a put that keeps what it replaces and passes the ceiling: the instance of the last condition failing |
| BlobQuota.KeepsNewest | src/db.rs:19459-19482 | replacing a file under a policy that keeps k versions keeps the replaced one and none older than the newest k, and touches no other file's versions |
| BlobQuota.ArchivedIs | src/db.rs:19459-19482 | the versions afterwards are, in order, those there were but one in the replaced one's place, and it; exactly those of the file that are too old and not marked before are marked, at that moment |
| BlobQuota.PurgeSparesLive | src/retention.rs:466-490 | purging takes exactly the rows lapsed at the cutoff, and none that is live then or later |
| Budget.ResolveWith | src/budget.rs:268-314 | the slots of a copy of the defaults are overwritten in order; what the result means is `Budget.AcceptedOnlyTightens` and `Budget.RefusedIff` |
| Budget.BudgetTracker.RecordCall | src/budget.rs:171-175 | a call counts one, and its cost only when positive |
| Budget.BudgetTracker.PersistRun | src/budget.rs:437-443 | the stamp is set and the alert raised on the first verdict that is not fine |
| Budget.LedgerAddsUp | src/budget.rs:171-175 | over any run each dimension has used what it had and what the run's records and waiting add to it: one call each, and the positive parts of tokens and latency |
| Budget.VerdictIsFraction | src/budget.rs:200-218 | for an alert fraction in (0, 1], as every plan has: exceeded if and only if the fraction used is at least 1, alert if and only if it lies between the two |
| Budget.VerdictIsFractionIff | src/budget.rs:200-218 | at exactly which alert fractions that holds of every ledger: in (0, 1], at or below zero with some limit set, above one with none |
| Budget.ExceededReports | src/budget.rs:200-236 | the dimension named has used what its limit allows |
| Budget.NeverMilder | src/budget.rs:171-211 | over any records and waiting the verdict never gets milder |
| Budget.AcceptedOnlyTightens | src/budget.rs:268-314 | limits that were accepted let no ledger pass that the plan's own would stop |
| Budget.RefusedIff | src/budget.rs:268-314 | a request is refused if and only if some member is no positive integer or is above the plan's limit |
| Budget.RefusedFor | src/budget.rs:268-314 | it is refused for the first member at fault, in the source's order, with the ceiling and what was asked |
| Budget.AcceptedAreAsked | src/budget.rs:268-314 | accepted limits are those asked for, and the plan's own where nothing was asked |
| Budget.OneAlert | src/budget.rs:437-447 | a run raises one alert if any persist saw it over, and otherwise none |
| AlertWindows.AlertLog.Raise | src/alerts.rs:225-250 | a raise lands on its key's last row within the cooldown, or on a new row, which alone is delivered |
| AlertWindows.RaisesConserved | src/alerts.rs:225-250 | over any run a key's rows stand for exactly its raises, each row for one and its repeats |
| AlertWindows.RowsChained | src/alerts.rs:225-250 | consecutive rows of a key are at least a cooldown apart, and the later's object body carries the earlier's repeats |
| AlertWindows.NeverSilenced | src/alerts.rs:225-250 | the row a raise lands on is its key's last and younger than the cooldown: no raise is kept quiet past it |
| AlertWindows.FirstRaiseIs | src/alerts.rs:225-250 | a key's first raise is a row that says just what was raised |
| AlertWindows.LaterRaiseIs | src/alerts.rs:225-250 | a later one counts on the key's last row within the cooldown, and is otherwise a row that says what was raised and how often the last was repeated |
| AlertWindows.EarlierRowsFinal | src/alerts.rs:225-250 | a row that is no longer its key's last never changes again, so the carried count is final |
| AlertWindows.QuotaTripTracker.Record | src/alerts.rs:396-409 | the pair's window after a trip, and its length |
| AlertWindows.TrackerCountsHistory | src/alerts.rs:396-409 | the number returned is how many trips of the pair, of all there ever were, lie within the last 300 seconds |
| AlertWindows.ContentionTracker.Tick | src/alerts.rs:566-588 | the samples and the latch after a tick, and what it reports |
| AlertWindows.FiresOncePerRun | src/alerts.rs:566-588 | a tick reports if and only if it is elevated over the oldest tick in the window and the one before it was not: once in each unbroken run of elevated ticks |
| Delegation.ImpliesIsAnOrder | src/scopes.rs:112-123 | scope implication is reflexive, transitive and antisymmetric |
| Delegation.ImpliesIsLeast | src/scopes.rs:112-123 | it is the least order in which the full scope has every other and each has what its description says it includes |
| Delegation.HeldIff | src/scopes.rs:112-123 | a scope is held if some scope held grants it |
| Delegation.NarrowRefusesIff | src/delegation.rs:64-92 | a request is refused if and only if some item exceeds the parent, and the first kind in the order scope, tool, lifetime, depth is the one named |
| Delegation.ChildMayIff | src/delegation.rs:64-92 | a child key may do exactly what was asked for, within what its parent may do, may delegate if that was asked for, and stands one below |
| Delegation.ChainOnlyShrinks | src/delegation.rs:64-92 | down any chain a key may do no more than any above it, each of which may delegate, and its depth is the root's plus the delegations, at most 3 |
| Delegation.ChainIsShort | src/delegation.rs:64-92 | under a primary key at most three keys follow one another |

## Left out

- HTTP, pages, webhooks, mail, scanning, fetching, file writes and the SQL engine: I/O; a database call or a guarded update is one step with the effect its statement has.
- Cryptography: signatures, the digest and the PKCE challenge are parameters or compared values; a bearer token reaches the model as its verified claims.
- Revocation interleaved statement by statement: `OauthGrants` runs each handler as one step; `OauthClaims` interleaves statements for the at-most-once claims only.
- OauthGrants.OauthServer.TokenJwtBearer: does not model the checks before the claims' times (resource, issuer, client, scope, signature, audience), which come in as one flag.
- OauthGrants.OauthServer.ValidateHostedBearer: does not model malformed claims, the tenant's own row or the federated issuer, because a bearer token reaches the model as its verified claims.
- Client identification, client policy, secrets, federation and end-user claims in the token handlers: they come in as a gate with the refusals they cause.
- Asks: validation of a new ask's texts, the waited time, waking from another process, and pruning while a waiter is in its loop.
- Audit rows: non-integer numbers; keys are ordered by character, which is the order of their UTF-8 bytes.
- AuditChain.Verify: does not model the key lookup inside the signature check, which is a parameter.
- Contract schemas: keywords beyond type, enum, maximum, required, properties and default; the rounding of a maximum to a floating-point number, and the spelling of numbers (1 and 1.0 are one value here, two to the checker's enum and default comparisons); dates, which come in as Unix times or as unreadable.
- ContractDiff.CallersUnbroken: states a simple sufficient condition for nested arguments; the exact one is `SchemaContainment.CallersKeptIff`.
- The changelog parser, version numbers, `deprecation_notices` and `widened` in the contract module: lookups and reports, easier than what is here.
- Zip names are bytes, not decoded; content sniffing and the making of the list of accepted entry types are not modelled.
- Blobs: the bytes on disk and the failed write.
- BlobQuota.CeilingsHoldIff: speaks of the current files; with kept versions it is `BlobQuota.TotalHoldsIff`.
- Budget: rounding of floating-point fractions (exact rationals here) and 64-bit overflow of the counters.
- Alerts: delivery itself, and two raises of one key racing between the read and the write.
- Delegation: the deadline of a run a key is bound to and the plan's ceilings, which only shorten a key's life or refuse more.
