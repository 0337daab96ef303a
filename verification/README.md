# A verified model of the januaport plugins

Four components of the repository are modelled, with the promises their documentation makes about them.

**The write jobs of the LinkedIn page.** A server process supervises one disposable job process over a pipe.
The job reads an entry and its files once, compares the hash of the effect with the approval, and asks its
server for a hash check, a count, permits, tokens and a write grant before it talks to the provider.
`Redaktion`, `JsonText`, `Utf8` and `Wire` hold the effect, its canonical bytes and its wire forms.
`PostAdapter` holds the job: an automaton over the approved effect, the file bytes and the provider's replies,
and the program with its loops and early exits, proved to make exactly the automaton's calls. `DayCounter` and
`PostPool` hold the server's books, `PostProtocol` the step relation of jobs, pipes, server, clock and renewal
threads, `PostSafety` its invariant, and `PostTheorems`, `PostVideo` and `PostContent` what follows for every run and
for what is sent. `Server` is the
HTTP boundary that turns a verdict into the caller's answer, and `Oauth` the token state both sides share.

**The worker pools.** `Workers` and `WorkerSafety` model two reusable worker processes with a queue in front of
them, kill on abandonment and renewals in threads; `RateWindow` is the pruned sliding window, and `GoogleWorkers`
the door of the second pool with its two sources and its write cap. `Statistics` is the rule for which rows of the
provider may be summed for which days.

**The agent's run.** `ModelJson`, `Anthropic` and `OpenAi` model both wire forms of the history over JSON values
with nested content, their recursive validators and their projections; `AgentLoop` and `AgentRun` the conversation,
the gateway's answers and the bounded loop.

**The EBICS fetcher.** `EbicsFiles` is a directory whose operations can fail or be the last thing a process does;
`EbicsFetch` stores deliveries and decides on the receipt, `EbicsKeys` exchanges the bank keys.

Code that works by changing state step by step is written as classes and methods with loops, each proved against a
function or relation, and the whole-history theorems are lemmas about those. A protocol is a relation over steps; a
step is one atomic move of one side, and everything outside (provider, bank, clock, failures, deaths of processes)
is an arbitrary parameter of the step. `FileNames` and `Wrappers` are shared helpers. `dafny verify dfyconfig.toml`
checks the project.

Where the code and its own documentation differ, the model follows the code. Three promises do not hold as they are
stated; for each there is a failing input and the exact condition under which it holds:

- The JSON validators accept a member whose name is a run of allowed names with blanks between them, and nothing else
  beside the allowed names (`ModelJson.ListedIsARun`, `Anthropic.BlankNamesPass`); the check means what it is for if and
  only if no member name has a blank (`ModelJson.OnlyIsMembership`).
- The daily caps need a clock that does not come back: a day is granted the first attempts of each visit of the clock
  up to its cap (`DayCounter.GrantsAreExact`, `DayCounter.SixOfFive`), so the cap holds if and only if the clock arrives
  at the day once at most or no more is asked than the cap (`DayCounter.CapHoldsExactly`).
- The promise that a run stores the confirmed bank keys or leaves the old ones holds if and only if no hidden file of
  an earlier, dead run with another content is there before it, or it stops for want of a backup name
  (`EbicsKeys.OldOrDelivered`, `EbicsKeys.StuckTwinIsAdopted`). As long as a save leaves the whole file or nothing, even
  the keys of such a file were vouched for, by the run that left it (`EbicsKeys.EveryTwinHasItsOrigin`).

## Model

| member | source | states |
|---|---|---|
| `Utf8.RoundTrip` | linkedin-seite/linkedin_seite/redaktion.py:308 | decoding the UTF-8 bytes of any text gives the text back; a decoder independent of the encoder |
| `JsonText.ReadQuoted` | linkedin-seite/linkedin_seite/redaktion.py:297-308 | a JSON string literal (RFC 8259, section 7) is read back as the text it was written from, before any continuation |
| `JsonText.ReadDecimal` | linkedin-seite/linkedin_seite/redaktion.py:304-308 | a decimal number is read back, with its sign, before anything that is not a digit |
| `JsonText.ReadWrittenList` | linkedin-seite/linkedin_seite/redaktion.py:303-308 | a list is read back whenever its elements are |
| `Redaktion.EntryIsExact` | linkedin-seite/linkedin_seite/redaktion.py:221-254 | a record is accepted exactly if its known fields are texts, no relevant one carries a pseudonym mark and the action finds what it needs and nothing it forbids; the entry has the texts as they are |
| `Redaktion.RefusedFirst` | linkedin-seite/linkedin_seite/redaktion.py:226-232 | a known field that is no text refuses a record whatever the action, and then a pseudonym mark in a field that the action would use |
| `Redaktion.RefusedThen` | linkedin-seite/linkedin_seite/redaktion.py:233-254 | after that the first thing that the action lacks, or must not have, names the refusal |
| `Redaktion.EffectIsTheRecord` | linkedin-seite/linkedin_seite/redaktion.py:221-294 | what the effect of each action holds, said of the stored record: its target is the organization for a post and the stored address otherwise, its text is the stored one, its media are the copies, and none of its texts carries a pseudonym mark |
| `Redaktion.KindIsTheEnding` | linkedin-seite/linkedin_seite/redaktion.py:156-161 | the kind of a file is told by the ending of its name, in any case |
| `Redaktion.FormatsPossible` | linkedin-seite/linkedin_seite/redaktion.py:257-273 | a post is a text, a poll, one or more pictures, one document or one video, and nothing else |
| `Redaktion.CanonicalIsFlat` | linkedin-seite/linkedin_seite/redaktion.py:297-308 | the frozen encoding to the letter: its members, their order, no blanks |
| `Redaktion.CanonicalRecovers` | linkedin-seite/linkedin_seite/redaktion.py:297-308 | a parser recovers from the canonical bytes exactly the effect they stand for, for every text, media list and poll |
| `Redaktion.CanonicalInjective` | linkedin-seite/linkedin_seite/redaktion.py:297-308 | two effects have the same canonical bytes if and only if they mean the same, absent parts included |
| `Redaktion.ApprovalIsSpecific` | linkedin-seite/linkedin_seite/redaktion.py:311-312 | equal approval hashes mean equal effects, or the hash function has collided |
| `Redaktion.SealIsFrozen` | linkedin-seite/linkedin_seite/redaktion.py:311-312 | the label, and the digest of the prefix line and the canonical bytes |
| `Wire.Little` | linkedin-seite/linkedin_seite/redaktion.py:317-330 | the escaping loop computes the text whose marks are those of the rule |
| `Wire.LittleIsUndone` | linkedin-seite/linkedin_seite/redaktion.py:317-330 | taking the escapes out gives the text back; a reader sees every character in order, bare exactly if it is not reserved or is the # of a hashtag |
| `Wire.LittleInjective` | linkedin-seite/linkedin_seite/redaktion.py:317-330 | no two texts share an escaped form |
| `Wire.VideoTeile` | linkedin-seite/linkedin_seite/redaktion.py:350-365 | the checking loop returns the parts or the first complaint in the order of the checks |
| `Wire.PartsAreTheTiling` | linkedin-seite/linkedin_seite/redaktion.py:350-365 | instructions are accepted if and only if they name allowed parts that tile the file without gap or overlap |
| `Wire.PartsRebuild` | linkedin-seite/linkedin_seite/post_adapter.py:213-214 | the slices of accepted parts, one after the other, are the bytes of the file |
| `PostAdapter.Adapter.AskServer` | linkedin-seite/linkedin_seite/post_pool.py:35-40 | one question, one answer; a denial is raised with its code |
| `PostAdapter.Adapter.Prepare` | linkedin-seite/linkedin_seite/post_adapter.py:154-166 | before the transport: the action is counted before the first request only, then the token is asked for; the log holds exactly these questions, or a part of them if one is refused |
| `PostAdapter.MethodsTellApart` | linkedin-seite/linkedin_seite/source_contract.py:112-122 | every request but the question for the state of a video is a write, uploads and deletions too |
| `PostAdapter.Adapter.Exchange` | linkedin-seite/linkedin_seite/post_adapter.py:33-45 | permit, then for a write the write grant, then the request; nothing goes out before its grants |
| `PostAdapter.Adapter.Request` | linkedin-seite/linkedin_seite/post_adapter.py:33-58 | one request moves the program exactly as it moves the provider automaton |
| `PostAdapter.Adapter.Api` | linkedin-seite/linkedin_seite/post_adapter.py:159-179 | a call with the wrong status ends in the automaton's failure |
| `PostAdapter.Adapter.Upload` | linkedin-seite/linkedin_seite/post_adapter.py:181-190 | a refused upload address ends the job before the first byte; otherwise the bytes go out once |
| `PostAdapter.Adapter.Asset` | linkedin-seite/linkedin_seite/post_adapter.py:197-202 | initialise, check the answer, send the bytes of the one copy |
| `PostAdapter.Adapter.UploadParts` | linkedin-seite/linkedin_seite/post_adapter.py:212-218 | the upload loop sends the parts in order and collects their etags until the automaton is at the finalisation |
| `PostAdapter.Adapter.FinishVideo` | linkedin-seite/linkedin_seite/post_adapter.py:219-230 | finalise and poll; it returns only if the automaton stands at the post of that video |
| `PostAdapter.Adapter.SendVideo` | linkedin-seite/linkedin_seite/post_adapter.py:204-230 | the whole video upload follows the automaton; all parts are checked before one is sent |
| `PostAdapter.Adapter.UploadPictures` | linkedin-seite/linkedin_seite/post_adapter.py:236-237 | every picture is uploaded in order, and the post lists exactly their ids |
| `PostAdapter.Adapter.Attach` | linkedin-seite/linkedin_seite/post_adapter.py:232-247 | the content of the post for each of the six formats |
| `PostAdapter.Adapter.CreatePost` | linkedin-seite/linkedin_seite/post_adapter.py:248-254 | the post carries the escaped text of the effect and the content of the uploads |
| `PostAdapter.Adapter.Posten` | linkedin-seite/linkedin_seite/post_adapter.py:232-254 | media or poll first, then the post: the automaton of the approved effect, although the code works from the entry |
| `PostAdapter.Adapter.Laden` | linkedin-seite/linkedin_seite/post_adapter.py:86-99 | the entry is read once and each file once into a private copy; the result is the one reading the job works with, or the first complaint in the order of the checks |
| `PostAdapter.Adapter.Vorschau` | linkedin-seite/linkedin_seite/post_adapter.py:101-114 | a preview shows the reading of the same entry and files or its first complaint, asks nothing, sends nothing and wipes the copies on every path |
| `PostAdapter.PreviewIsTheJob` | linkedin-seite/linkedin_seite/post_adapter.py:101-118 | the effect recomputed from the fields on display is the effect of the job, with the same hash; a job is approved if and only if it is started with the hash on display |
| `PostAdapter.LoadedCopies` | linkedin-seite/linkedin_seite/post_adapter.py:89-97 | every copy holds the bytes read for the name in its place |
| `PostAdapter.Adapter.Act` | linkedin-seite/linkedin_seite/post_adapter.py:116-146 | how a job ends, for every reading, approval, server and provider: its first complaint or a missing approval without a word to anyone; killed, denied or "already done" after the report of its hash alone; otherwise exactly where the automaton of that effect ends, with the payload of that request, or cut short in its next call by a denial or a kill |
| `PostAdapter.Adapter.Perform` | linkedin-seite/linkedin_seite/post_adapter.py:116-150 | the same with the copies wiped on every path; in the log of every job each request follows directly on its token, its permit and, unless it only asks for a state, its write grant |
| `PostAdapter.Adapter.Wipe` | linkedin-seite/linkedin_seite/post_adapter.py:148-150 | no copy keeps its bytes |
| `PostAdapter.Adapter.Dispatch` | linkedin-seite/linkedin_seite/post_adapter.py:122-138 | each of the four actions ends where its automaton ends |
| `PostAdapter.Adapter.Target` | linkedin-seite/linkedin_seite/post_adapter.py:125-138 | the one request of an action on a published post, and the id of a comment |
| `PostAdapter.TaskOfFits` | linkedin-seite/linkedin_seite/post_adapter.py:94-99 | effect, copies and format of one reading belong together: same shape, same bytes, same names in order |
| `PostAdapter.PartsUsable` | linkedin-seite/linkedin_seite/post_adapter.py:211-214 | accepted parts lie inside the file and have allowed addresses |
| `DayCounter.Counter.CountOnce` | linkedin-seite/linkedin_seite/post_pool.py:112-119 | the loop that drops other days and the attempt after it compute the counting function |
| `DayCounter.GrantsAreExact` | linkedin-seite/linkedin_seite/post_pool.py:112-119 | for every clock whatsoever, the attempts granted on a day are exactly those among the first cap attempts of a visit of the clock to that day |
| `DayCounter.CapPerVisit` | linkedin-seite/linkedin_seite/post_pool.py:112-119 | each visit brings what the clock stays, up to the cap, and the grants of a day are the sum over its visits |
| `DayCounter.CapHoldsExactly` | linkedin-seite/linkedin_seite/post_pool.py:112-119 | a day keeps its cap if and only if the clock arrives at it once at most or there are no more attempts on it than the cap |
| `DayCounter.DailyCap` | linkedin-seite/linkedin_seite/post_pool.py:112-119 | for a clock that never goes back, a day never gets more than its cap |
| `DayCounter.BackwardsClockBreaksTheCap` | linkedin-seite/linkedin_seite/post_pool.py:112-119 | a clock that leaves a full day and comes back breaks every cap: one grant too many |
| `DayCounter.SixOfFive` | linkedin-seite/linkedin_seite/post_pool.py:112-119 | the failing input at the cap of five write actions: six are granted |
| `DayCounter.CountKeeps` | linkedin-seite/linkedin_seite/post_pool.py:112-119 | one more attempt keeps the number of today equal to the history and every day within its cap |
| `PostPool.Job.constructor` | linkedin-seite/linkedin_seite/post_pool.py:78-84 | a new job has no digest and no write |
| `PostPool.WritePool.constructor` | linkedin-seite/linkedin_seite/post_pool.py:88-104 | a new pool has empty counters and an empty cache |
| `PostPool.WritePool.Reply` | linkedin-seite/linkedin_seite/post_pool.py:148-171 | the answer to every question with its effect on counters, job and cache; a preview is denied everything |
| `PostPool.WritePool.Supervised` | linkedin-seite/linkedin_seite/post_pool.py:189-199 | the verdict on a job's last message, and what enters the cache |
| `PostSafety.MoveKeeps` | linkedin-seite/linkedin_seite/post_pool.py:55-75 | every step of a job process keeps the invariant of its job: pipe, program, write grant, permits, count |
| `PostSafety.ServeKeeps` | linkedin-seite/linkedin_seite/post_pool.py:136-199 | serving one message, with its reply lost or not, keeps the invariant of the whole system |
| `PostSafety.AbortKeeps` | linkedin-seite/linkedin_seite/post_pool.py:173-217 | so does ending a job by deadline, dead process, broken pipe or service stop, while its process may run on |
| `PostSafety.StartKeeps` | linkedin-seite/linkedin_seite/post_pool.py:241-269 | so does starting a write job or a preview |
| `PostSafety.ClockKeeps` | linkedin-seite/linkedin_seite/post_pool.py:112-143 | so do the renewals of another thread and the passing of days |
| `PostSafety.StepKeeps` | linkedin-seite/linkedin_seite/post_pool.py:87-276 | every step of the system keeps the invariant |
| `PostSafety.RunKeeps` | linkedin-seite/linkedin_seite/post_pool.py:87-276 | so does every run, in every interleaving |
| `PostTheorems.NotExecutedIsTrue` | linkedin-seite/linkedin_seite/post_pool.py:148-217 | in every reachable state, an answer that proves non-execution is true: every request of the job has only asked for the state of a video |
| `PostTheorems.VerdictIsFinal` | linkedin-seite/linkedin_seite/post_pool.py:189-217 | an answer once given stays the answer |
| `PostTheorems.OnlyTheApprovedEffect` | linkedin-seite/linkedin_seite/post_adapter.py:86-146 | every request of a job is the one that its approved effect, its bytes and the earlier replies determine; a job with another hash sends nothing |
| `PostTheorems.OneHashOneTask` | linkedin-seite/linkedin_seite/redaktion.py:287-312 | one approval hash stands for one effect with one set of file bytes, unless the hash collides |
| `PostTheorems.OneHashOneOrganization` | linkedin-seite/linkedin_seite/redaktion.py:285-312 | an approval names its organization: two services that post with one approval post for the same one, unless the hash collides |
| `PostTheorems.OneHashOneSequence` | linkedin-seite/linkedin_seite/post_adapter.py:86-146 | two jobs approved with one hash that have heard the same replies send the same requests, byte for byte |
| `PostTheorems.DailyCaps` | linkedin-seite/linkedin_seite/post_pool.py:112-123 | on no day more than 45 HTTP attempts, token exchanges included, and not more than 5 actions are granted |
| `PostTheorems.EveryRequestHasItsGrant` | linkedin-seite/linkedin_seite/post_adapter.py:33-38 | each request has a permit of its own in the log, no two share one, and its job has counted its action exactly once |
| `PostTheorems.OneWriteJob` | linkedin-seite/linkedin_seite/post_pool.py:248-253 | at most one write job is open at any time |
| `PostTheorems.ConfirmedOnceSentOnce` | linkedin-seite/linkedin_seite/post_pool.py:164-199 | once a pair of entry and hash is confirmed, it stays so with its result; a job started later for it sends nothing, and any result it gives is the stored one, marked as repeated |
| `PostTheorems.AlreadyDoneFindsItsResult` | linkedin-seite/linkedin_seite/post_pool.py:192-196 | a job that says "already done" always finds the stored result |
| `PostTheorems.ResultsAreRemembered` | linkedin-seite/linkedin_seite/post_pool.py:189-196 | whenever a write job has ended with a result, its pair is confirmed from then on and the result is the stored one |
| `PostTheorems.CapsAreExact` | linkedin-seite/linkedin_seite/post_pool.py:112-123 | a permit or an action is granted exactly while the day has had fewer than its cap |
| `PostVideo.PollsAreBounded` | linkedin-seite/linkedin_seite/post_adapter.py:219-230 | with a clock that runs forward and the fixed spacing, the state of a video is asked at most 31 times, the question still waiting for its answer included |
| `PostVideo.StatesOfAVideo` | linkedin-seite/linkedin_seite/post_adapter.py:219-230 | what the state of a video leads to: the post, the next question within 15 minutes of the finalisation, or the failure of the job |
| `PostVideo.PostOnlyAvailable` | linkedin-seite/linkedin_seite/post_adapter.py:220-225 | the post of a video follows directly on the answer that this video is available |
| `PostVideo.FinalizeListsEveryPart` | linkedin-seite/linkedin_seite/post_adapter.py:204-218 | at the finalisation the uploads concatenate to the hashed bytes, there are at most ceil(size / 4 MiB) of them, none carries the token, and the request lists one etag per part in order |
| `PostContent.PreviewIsSent` | linkedin-seite/linkedin_seite/post_adapter.py:101-138 | for every exchange with the provider, what the job sends is what the preview shows: author, address, text, title and poll, and bytes go to allowed addresses only |
| `PostContent.AssetsInOrder` | linkedin-seite/linkedin_seite/post_adapter.py:192-237 | a post with pictures or a document refers to all of them, in order, each by the id given for the address its bytes were sent to |
| `PostContent.OnlyBadAnswersFail` | linkedin-seite/linkedin_seite/post_adapter.py:192-254 | a job fails on an answer of the provider exactly if the answer is not good at that point: its status, an asset of the right kind, an allowed address, parts that tile the file, an etag, an id |
| `PostContent.ResultIsConfirmed` | linkedin-seite/linkedin_seite/post_adapter.py:122-142 | a result has the provider’s word: some answer has confirmed the request that completes the action, with its status, and the result names what it names |
| `Server.Handle` | linkedin-seite/linkedin_seite/server.py:118-158 | the checks in their order; the two flags say how far the request came |
| `Server.EndsByCase` | linkedin-seite/linkedin_seite/server.py:118-158 | what a request gets, by how far it comes: without the key nothing is served but the health of the service |
| `Server.Errors` | linkedin-seite/linkedin_seite/server.py:111-198 | the answer claims non-execution if and only if an entitled request was stopped before the pool or the pool itself said so, and never for a missing approval; an entitled request is answered with exactly what stopped it |
| `Server.ClaimIsFounded` | linkedin-seite/linkedin_seite/server.py:178-197 | the claim is founded exactly on arguments that stopped the request, a missing pool, or a proof of the pool itself; a refused approval founds none |
| `Server.FlaggedAnswerIsTrue` | linkedin-seite/linkedin_seite/server.py:180-197 | the claim in an answer is true for ever: in no continuation does the job make a request other than the question for the state of a video |
| `Server.FlagIsTheGrant` | linkedin-seite/linkedin_seite/server.py:180-185 | for a request whose job has failed, the claim is made if and only if the job was never granted a write and was not turned down for its approval |
| `Oauth.Lifetime` | linkedin-seite/linkedin_seite/oauth.py:133-143 | a lifetime is accepted exactly if it is a positive integer of at most the cap and a day, and is never longer than the cap or the answer |
| `Oauth.ScopesAreTheWords` | linkedin-seite/linkedin_seite/oauth.py:122-130 | separators only separate, and a text without one is one scope: together these fix the set |
| `Oauth.TokenResult` | linkedin-seite/linkedin_seite/oauth.py:146-173 | an accepted answer is unexpired, lives at most 60 and 365 days, never extends the original consent, and names exactly the granted scopes if it must |
| `Oauth.WhichAnswersAreTaken` | linkedin-seite/linkedin_seite/oauth.py:133-173 | an answer is taken exactly if it names the scopes of the grant and a bearer token where it names them, a secret with its lifetime, and a refresh token only with a lifetime of its own |
| `Oauth.Tokens.Access` | linkedin-seite/linkedin_seite/oauth.py:195-210 | one request under the lock: new state, answer and the refresh token of the exchange if there was one |
| `Oauth.RenewalIsTheAnswer` | linkedin-seite/linkedin_seite/oauth.py:195-210 | a renewed token is the one in the answer, with the lifetime the answer names up to the maximum; a failed exchange, and none at all, leave everything as it was |
| `Oauth.ReturnedIsFresh` | linkedin-seite/linkedin_seite/oauth.py:195-210 | in any sequence of requests a returned token is the stored one and unexpired at the time it was checked |
| `Oauth.ExchangeIsDue` | linkedin-seite/linkedin_seite/oauth.py:195-204 | every exchange uses the newest refresh token, in the last five minutes of the access token or after, before the deadline |
| `Oauth.DeadlineNeverLater` | linkedin-seite/linkedin_seite/oauth.py:163-167 | the deadline of the consent is never moved later and a consent never gained |
| `Oauth.NoExchangeAfterTheDeadline` | linkedin-seite/linkedin_seite/oauth.py:201 | once the deadline has passed, the endpoint is never asked again |
| `Oauth.WaitersFindTheRenewal` | linkedin-seite/linkedin_seite/oauth.py:179-184 | who comes after a renewal gets the renewed token without another exchange |
| `Oauth.LifetimesKept` | linkedin-seite/linkedin_seite/oauth.py:91-96 | every stored expiry is within the documented maximum of the newest visit, or is still the one found at the start |
| `Oauth.LifetimesBounded` | linkedin-seite/linkedin_seite/oauth.py:91-96 | what the check at the start accepts, the maximum and a minute, holds at every later visit |
| `RateWindow.Prune` | linkedin-seite/linkedin_seite/workers.py:140-142 | the pruning loop computes the pruned ticks |
| `RateWindow.PrunedIsRecent` | linkedin-seite/linkedin_seite/workers.py:140-144 | the pruned ticks give the same decision as the whole log |
| `RateWindow.WindowHolds` | linkedin-seite/linkedin_seite/workers.py:140-147 | over every history, any admitted request and the 30th after it are at least 60 seconds apart, and the decision on the next one is that of the whole log |
| `Workers.WorkerPool.constructor` | linkedin-seite/linkedin_seite/workers.py:59-85 | a new pool has two empty slots, both queued |
| `Workers.WorkerPool.Enter` | linkedin-seite/linkedin_seite/workers.py:136-148 | the checks at the door, in order, and what each leaves behind |
| `Workers.WorkerPool.Take` | linkedin-seite/linkedin_seite/workers.py:152-153 | the first free slot, with a worker in it |
| `Workers.WorkerPool.Kill` | linkedin-seite/linkedin_seite/workers.py:110-124 | a killed worker leaves its slot empty; one that survives keeps it |
| `Workers.WorkerPool.Leave` | linkedin-seite/linkedin_seite/workers.py:177-186 | the end of a request: an unanswered one kills its worker, and the slot comes back unless that failed |
| `Workers.LeavingByAnswer` | linkedin-seite/linkedin_seite/workers.py:177-186 | an answered request leaves its worker for the next, an unanswered one takes it with it, and a worker that cannot be killed takes its slot |
| `Workers.WorkerPool.Permit` | linkedin-seite/linkedin_seite/workers.py:90-96 | one HTTP attempt of today, or the refusal of the cap |
| `WorkerSafety.RepliesNeverCross` | linkedin-seite/linkedin_seite/workers.py:136-186 | under any timeout, cancellation, crash or broken pipe, the reply a request gets was produced by a worker that was working on that request |
| `WorkerSafety.QueuedSlotsAreClean` | linkedin-seite/linkedin_seite/workers.py:177-186 | a slot in the queue is empty, or its worker is dead, or idle with both directions of the pipe empty |
| `WorkerSafety.NoStrayMessages` | linkedin-seite/linkedin_seite/workers.py:24-55 | an idle worker is only ever sent its request, and a worker that has asked only gets the answer |
| `WorkerSafety.SlotsAreConserved` | linkedin-seite/linkedin_seite/workers.py:110-186 | every slot is in exactly one place: queued, held by one request, or retired; what comes back finds room in the queue |
| `WorkerSafety.RoomForTheSlot` | linkedin-seite/linkedin_seite/workers.py:186 | putting a slot back never overflows the queue |
| `WorkerSafety.RetiredForEver` | linkedin-seite/linkedin_seite/workers.py:119-122 | a slot whose process could not be killed never comes back |
| `WorkerSafety.AtMostSixInside` | linkedin-seite/linkedin_seite/workers.py:145-148 | the number of pending requests is that of the requests inside, at most six |
| `WorkerSafety.LimitsHold` | linkedin-seite/linkedin_seite/workers.py:90-96 | over every run the rate holds, and no day has more than 50 HTTP attempts, renewals in threads included |
| `WorkerSafety.RateIsExact` | linkedin-seite/linkedin_seite/workers.py:140-144 | a request is turned away for its rate exactly if 30 admitted ones lie in the last 60 seconds |
| `WorkerSafety.QueueIsExact` | linkedin-seite/linkedin_seite/workers.py:145-148 | a request within the rate is let in exactly while fewer than six are inside, and told that the queue is full otherwise |
| `WorkerSafety.StepKeeps` | linkedin-seite/linkedin_seite/workers.py:136-186 | every step of requests, workers, renewals and clock keeps the invariant |
| `GoogleWorkers.WorkerPool.CountWrite` | google-reporting/google_reporting/workers.py:68-75 | only the numbers of today survive; the attempt is counted unless its source has used up the day |
| `GoogleWorkers.WorkerPool.Enter` | google-reporting/google_reporting/workers.py:105-120 | the checks in order: rate of the source, queue, writes of the day, and only then the tick |
| `GoogleWorkers.SourcesKeepTheirLimits` | google-reporting/google_reporting/workers.py:68-75 | over every history each source keeps its own window and writes at most 20 times a day |
| `GoogleWorkers.DecisionIsExact` | google-reporting/google_reporting/workers.py:105-118 | the pruned windows and today’s counters decide exactly like the full history: rate, queue and writes, in this order |
| `Statistics.ParseRequest` | linkedin-seite/linkedin_seite/domain.py:63-90 | which requests are accepted, exactly: only arguments of the report, each once, numbers in their range, an end date that can be read and is over; the request covers the days asked for, and every refusal has its code |
| `Statistics.ArgumentsByReport` | linkedin-seite/linkedin_seite/domain.py:63-90 | what the arguments of each report are: days and their last one for the statistics, the number for the posts, each in its range and none beside |
| `Statistics.SmallIsDecimal` | linkedin-seite/linkedin_seite/domain.py:73-76 | a number of days or posts is read from its decimal form from 1 to 99 and from nothing else |
| `Statistics.AcceptedIsTheDays` | linkedin-seite/linkedin_seite/linkedin_adapter.py:156-160 | the rows are accepted if and only if their intervals are the expected days, each once, in any order |
| `Statistics.AcceptedCoversOnce` | linkedin-seite/linkedin_seite/linkedin_adapter.py:156-160 | what is summed counts every instant of the asked days exactly once and nothing outside them |
| `ModelJson.ListedIsMembership` | agent-runner/internal/anthropic/adapter.go:43-50 | a name is one of the list exactly if the search finds it and it has no blank |
| `ModelJson.ListedIsARun` | agent-runner/internal/anthropic/adapter.go:43-50 | what the search in a list of one-word names accepts is exactly the runs of neighbouring names, joined by blanks |
| `ModelJson.OnlyIsMembership` | agent-runner/internal/anthropic/adapter.go:43-50 | the members of an object are all allowed if and only if the check passes and no member name has a blank |
| `Anthropic.BlankNamesPass` | agent-runner/internal/anthropic/adapter.go:95-145 | the failing input: a thinking block with a member that it may not have is accepted |
| `Anthropic.ValidateIsSendable` | agent-runner/internal/anthropic/adapter.go:52-89 | the validator accepts a marshalled request if and only if it has messages, known roles, valid content and named tools |
| `Anthropic.WordsVocabulary` | agent-runner/internal/anthropic/adapter.go:95-153 | which text and thinking blocks pass, as long as no member name has a blank: what they must and what they may contain |
| `Anthropic.CallsVocabulary` | agent-runner/internal/anthropic/adapter.go:95-153 | which tool calls and tool results pass: ids, names, an object as input, a direct caller, a valid content |
| `Anthropic.FilesVocabulary` | agent-runner/internal/anthropic/adapter.go:95-153 | which pictures and documents pass: embedded, not empty, of one of four types for a picture, and nothing unknown beside |
| `Anthropic.EncodedFile` | agent-runner/internal/anthropic/adapter.go:140-142 | an embedded file is made of groups of four characters, the last one filled up |
| `Anthropic.RequestVocabulary` | agent-runner/internal/anthropic/adapter.go:52-89 | which requests pass: some messages, a valid system, tools, no choice of tools but the own one of the model, and nothing unknown beside |
| `Anthropic.ToolResult` | agent-runner/internal/anthropic/adapter.go:159-191 | the projection loop computes the tool result block |
| `Anthropic.ResultSays` | agent-runner/internal/anthropic/adapter.go:159-191 | every part of a result goes to the model in order: a text as it is, an image as it is if the validator passes it, the fixed text otherwise; it is marked as an error exactly if the tool has marked it |
| `Anthropic.ProjectValid` | agent-runner/internal/anthropic/adapter.go:169-182 | whatever a tool sends becomes text, an image the validator has passed, or the fixed text, and is valid |
| `Anthropic.ResultValid` | agent-runner/internal/anthropic/adapter.go:159-191 | every tool result is a valid block, whatever the tool has answered |
| `Anthropic.NewRequestComplete` | agent-runner/internal/anthropic/adapter.go:32-41 | the first request is complete if and only if every tool has a name |
| `Anthropic.CallsAreTheBlocks` | agent-runner/internal/runner/conversation.go:63-70 | the calls of a turn are the tool blocks of its content, in order, each with an id and an object as input |
| `Anthropic.TurnIsTheAnswer` | agent-runner/internal/runner/conversation.go:47-73 | a turn is what the answer says: the text of its text blocks, its tool blocks in order, and its own word for the end |
| `Anthropic.UsualAnswer` | agent-runner/internal/runner/conversation.go:47-73 | an answer of the usual shape is taken as it is |
| `Anthropic.TurnKeeps` | agent-runner/internal/runner/conversation.go:47-73 | an accepted answer leaves a sendable history whose open calls are the calls of the turn |
| `Anthropic.ResultsKeep` | agent-runner/internal/runner/conversation.go:75-82 | answering exactly the open calls, in order, completes the history again |
| `OpenAi.ValidateIsSendable` | agent-runner/internal/openai/adapter.go:79-145 | the validator accepts a marshalled request if and only if its messages, calls and tool schemas have the required shape |
| `OpenAi.CallVocabulary` | agent-runner/internal/openai/adapter.go:111-145 | which calls pass, as long as no member name has a blank: an id, the type, a name and arguments, and nothing else |
| `OpenAi.MessageVocabulary` | agent-runner/internal/openai/adapter.go:111-145 | which messages pass: a known role, a text or nothing, tool results with their id, valid calls |
| `OpenAi.RequestVocabulary` | agent-runner/internal/openai/adapter.go:79-109 | which requests pass: some messages, tools perhaps, the token limit, and nothing unknown beside |
| `OpenAi.ToolResult` | agent-runner/internal/openai/adapter.go:182-204 | the projection loop computes the tool message |
| `OpenAi.ResultSays` | agent-runner/internal/openai/adapter.go:182-204 | every part of a result goes to the model in order, line by line, the structured part last |
| `OpenAi.NewRequestComplete` | agent-runner/internal/openai/adapter.go:54-58 | the first request is complete if and only if every tool has a name and an object as schema |
| `OpenAi.TurnIsTheAnswer` | agent-runner/internal/runner/conversation.go:86-109 | a turn is what the first choice says: its text, its calls with the arguments as they are read, and the reason for its end in the shared words |
| `OpenAi.UsualAnswer` | agent-runner/internal/runner/conversation.go:86-109 | an answer of the usual shape is taken as it is, and a filtered one ends the run |
| `OpenAi.TurnKeeps` | agent-runner/internal/runner/conversation.go:86-109 | a projected answer leaves a sendable history whose open calls are the calls of the turn |
| `OpenAi.ResultsKeep` | agent-runner/internal/runner/conversation.go:111-115 | one tool message for each open call, in order, completes the history again |
| `AgentLoop.Conversation.constructor` | agent-runner/internal/runner/conversation.go:34-43 | a conversation starts with the first request of its form |
| `AgentLoop.Conversation.Next` | agent-runner/internal/runner/gateway.go:79-161 | validate, send, classify, decode, and keep the answer in the history |
| `AgentLoop.TurnIsDelivered` | agent-runner/internal/runner/gateway.go:79-161 | a turn comes from a complete answer with status 200 and no error; it is final only if that was the last word of the model, and cut off exactly if that says so |
| `AgentLoop.NoAnswerEnds` | agent-runner/internal/runner/gateway.go:133-160 | how a run ends when no answer comes, by status, class and detail of the error |
| `AgentLoop.Conversation.AppendResults` | agent-runner/internal/runner/conversation.go:75-115 | the results enter the history in the way of each form |
| `AgentLoop.StartIsComplete` | agent-runner/internal/runner/gateway.go:79-102 | the first request passes its own validator: always in one form, in the other exactly if all tool schemas are objects |
| `AgentLoop.TurnKeeps` | agent-runner/internal/runner/conversation.go:47-109 | in both forms a turn leaves a valid history with exactly its calls open |
| `AgentLoop.ResultsKeep` | agent-runner/internal/runner/conversation.go:75-115 | in both forms the results close exactly these calls |
| `AgentRun.ListTools` | agent-runner/internal/runner/loop.go:49-75 | the tools of all pages up to the last, in order, or the page at which the listing breaks and why: it is missing, a tool does not fit, or its cursor leads nowhere |
| `AgentRun.CallTools` | agent-runner/internal/runner/loop.go:97-136 | each call is listed, new in its step, within the limit and the context when it is counted, logged and made; each outcome is what the tool said to that call, or the fixed error; an end in the calls names the call, the reason and what is on record |
| `AgentRun.RoundKeeps` | agent-runner/internal/runner/loop.go:80-138 | a whole step leads from one proper request to the next, which repeats the former and adds to it |
| `AgentRun.Sendings` | agent-runner/internal/runner/gateway.go:79-110 | nothing is sent that the validator refuses, and no refusal or answer of the endpoint ends a run with "ok" |
| `AgentRun.Steps` | agent-runner/internal/runner/loop.go:78-139 | the bounded loop: every step follows from the answer to its request, every request is the history after the steps before it, and the stop and the record are those of the last answer; every request has all earlier calls answered, repeats the one before, and passes its validator unless a schema forbids it from the start |
| `AgentRun.Run` | agent-runner/internal/runner/loop.go:18-140 | the run is the trace from the connection to the stop, within its limits; it ends with "ok" only if the last reply is a complete answer whose last word it is, without calls, and with its text, if the last tool step had no error and the context was alive; an answer that was cut off ends it with the token limit |
| `AgentRun.AnswersOfCalls` | agent-runner/internal/runner/loop.go:97-136 | a call whose input is no object gets the fixed error, any other what its tool has said; a step has failed exactly if one of its answers is marked as an error |
| `AgentRun.StepsAreAsked` | agent-runner/internal/runner/loop.go:97-101 | a run goes on with the calls of an answer only if that answer asks for tools |
| `AgentRun.OneTrace` | agent-runner/internal/runner/loop.go:18-140 | the trace is fixed by the arguments and the outside: listing, requests, steps, record, last turn and stop |
| `EbicsFiles.FreierPfad` | ebics-abholer/logik.php:281-299 | the first free number up to 999, or none exactly if all are taken |
| `EbicsFiles.CandidatesDiffer` | ebics-abholer/logik.php:281-299 | every number gives another name |
| `EbicsFiles.Disk.Write` | ebics-abholer/fetch.php:127 | a write that fails or dies may leave anything, under this name only |
| `EbicsFiles.Disk.Rename` | ebics-abholer/fetch.php:132 | a rename is atomic, also when the process dies in it |
| `EbicsFetch.Inhalte` | ebics-abholer/logik.php:235-255 | nothing, the one plain document, or the readable entries of the archive that are not white, in order and as often as they occur; none at all only for an archive that could not be opened |
| `EbicsFetch.DocumentsAreTheReadable` | ebics-abholer/logik.php:247-254 | a text is a document of an archive if and only if it is a readable entry and not blank |
| `EbicsFetch.UnreadableIsAcknowledged` | ebics-abholer/fetch.php:198-214 | an archive without a readable document is acknowledged, and nothing is stored |
| `EbicsFetch.PlacedWhole` | ebics-abholer/fetch.php:127-136 | a document appears under its name whole or not at all |
| `EbicsFetch.Ablegen` | ebics-abholer/fetch.php:116-147 | all documents under new names of their own, or, after a fault or for want of names, none but those whose removal failed; nothing visible is changed, no visible file is half written |
| `EbicsFetch.StoringIsRight` | ebics-abholer/fetch.php:116-147 | the same for every delivery and every fault at every file operation |
| `EbicsFetch.RemovedClears` | ebics-abholer/fetch.php:140-144 | after the clean-up exactly the names whose own removal failed are still there |
| `EbicsFetch.FetchingIsRight` | ebics-abholer/fetch.php:198-214 | a positive receipt is decided only when every document is stored; a negative one leaves exactly the files whose removal failed, and none if the removals work |
| `EbicsFetch.PositiveUnlessFault` | ebics-abholer/fetch.php:198-214 | readable documents are acknowledged unless a file operation fails or the names run out |
| `EbicsFetch.Abholen` | ebics-abholer/fetch.php:163-225 | the exit code says which receipt was decided, and nothing is touched without a delivery |
| `EbicsFetch.NothingAcknowledgedIsLost` | ebics-abholer/fetch.php:185-214 | after any sequence of runs with failures and deaths at any file operation, every document of a positively acknowledged delivery has a file of its own with its whole content |
| `EbicsFetch.WhatTheBankSentIsKept` | ebics-abholer/fetch.php:185-214 | the same said of the delivery: a plain document, and every readable entry of an archive; an archive that could not be opened is never acknowledged |
| `EbicsFetch.NothingIsOverwritten` | ebics-abholer/fetch.php:103-147 | what was ever visible stays as it was, and no two acknowledged deliveries share a file |
| `EbicsFetch.NegativeLeavesNothing` | ebics-abholer/fetch.php:140-144 | over every history, a negative receipt leaves the visible directory as it was unless a removal of that run failed |
| `EbicsFetch.OnlyWholeDocuments` | ebics-abholer/fetch.php:106-108 | every visible file that has appeared is a whole document of some delivery, also after a death |
| `EbicsFetch.NamesAreFormedHere` | ebics-abholer/logik.php:257-270 | every new visible name is formed from the date of the run, never taken from the bank |
| `EbicsKeys.GroupingIsPresentation` | ebics-abholer/logik.php:418-421 | the presentation compares equal to what it was made from |
| `EbicsKeys.NormalisedIsTheDigits` | ebics-abholer/logik.php:418-421 | two texts compare equal exactly if they have the same hex digits, whatever case and grouping |
| `EbicsKeys.UebernahmeArgumente` | ebics-abholer/logik.php:483-536 | accepted are exactly the calls with known arguments, at most one mode, and both digests exactly for the adoption |
| `EbicsKeys.ReadAllIsExact` | ebics-abholer/logik.php:483-536 | which calls can be read, and what they say, whatever the order of their arguments |
| `EbicsKeys.PruefsummenLage` | ebics-abholer/logik.php:438-468 | a role is reported exactly if its key differs, or if only its certificate does |
| `EbicsKeys.UebernahmePruefen` | ebics-abholer/logik.php:548-579 | accepted if and only if both inputs are not empty and agree with what the bank has delivered |
| `EbicsKeys.ConfirmsIsConfirmed` | ebics-abholer/logik.php:548-566 | an input confirms a key exactly if it has the hex digits of its digest, and at least one |
| `EbicsKeys.SecuredRight` | ebics-abholer/hpb.php:161-173 | the backup gets a new name, and the key file, its hidden twin and everything else stay as they were |
| `EbicsKeys.ReplacedRight` | ebics-abholer/hpb.php:189-207 | the hidden file, then the rename: the key file is the old one, the new one, or a twin that was there before, and a refusal leaves the old one |
| `EbicsKeys.Speichern` | ebics-abholer/hpb.php:183-208 | back up, then replace: if the key file has changed, its old content lies in a new backup, and it fails only for a fault or for want of names |
| `EbicsKeys.Pruefung` | ebics-abholer/hpb.php:221-264 | 4 if and only if a key or a certificate differs |
| `EbicsKeys.Lauf` | ebics-abholer/hpb.php:279-347 | one run with its exit code: a refused call, a failed fetch, a comparison and a failed confirmation change no file; otherwise the delivered keys are stored beside the untouched rest, unless a fault or the want of names prevents it |
| `EbicsKeys.StoredKeysStay` | ebics-abholer/hpb.php:294-298 | a call that asks for no mode never touches a keyring with a stored key, and exits with 1, whatever the bank delivers |
| `EbicsKeys.EachCall` | ebics-abholer/hpb.php:279-347 | the first fetch stores where no key is stored, the comparison says whether a key or a certificate differs, the adoption stores exactly if both digests are confirmed and exits with 5 otherwise |
| `EbicsKeys.ExitCodesOfStoring` | ebics-abholer/hpb.php:349-371 | 0 means that the old keyring is in a new backup, 2 that the key file is the old one, and no code that the process died |
| `EbicsKeys.EveryKeyringSurvives` | ebics-abholer/hpb.php:153-208 | after any sequence of runs with failures and deaths, every content that was ever current is current or in an untouched backup |
| `EbicsKeys.OldOrDelivered` | ebics-abholer/hpb.php:183-208 | whatever happens at every file operation, the key file ends as the old one or the delivered one: if and only if there was no other hidden twin before the run |
| `EbicsKeys.SuccessIsDelivered` | ebics-abholer/hpb.php:183-208 | the exit code 0 means that the delivered keys are current, whatever happens, if and only if no other twin was there before |
| `EbicsKeys.BankKeysAreVouchedFor` | ebics-abholer/hpb.php:279-347 | over all runs that find no foreign twin, the stored bank keys are the first ones ever, or the run that stored them had both digests confirmed, and the rest of the keyring is untouched |
| `EbicsKeys.EveryTwinHasItsOrigin` | ebics-abholer/hpb.php:183-208 | with whole saves and no twin at the start, whatever lies in the key file or in its twin was there at the start or was stored by a run that vouched for it |
| `EbicsKeys.OwnKeysStay` | ebics-abholer/hpb.php:279-347 | with or without a stuck twin, the operator’s own keys stay what they were |
| `EbicsKeys.StuckTwinIsAdopted` | ebics-abholer/hpb.php:189-201 | the proviso is needed, for every keyring and any two pairs of keys: a run that dies before its rename, and one that confirms other keys, cannot remove the twin, writes nothing and reports success |
| `EbicsKeys.StuckTwinExample` | ebics-abholer/hpb.php:189-201 | one such history of two runs with their calls and keyrings |

## Left out

Weaker than the code or than its promise, on purpose:

- PostTheorems.DailyCaps: the day of an attempt is the day of its grant, because the code counts when it grants and not when the request leaves.
- PostTheorems.ConfirmedOnceSentOnce: says nothing about how a later job for the pair ends if it does not end with a result, because it may still be killed, cancelled or turned down.
- PostVideo.PollsAreBounded: takes the fixed sleep between two requests and a clock that runs forward as facts about the times in the replies, because sleeping is not modelled.
- Redaktion.EntryIsExact: the parsing of the media list and of the poll and the patterns of the URN fields are parameters, because they are checks of one field each.
- Wire.VideoTeile: whether an upload address is allowed is a parameter, because it is a test of one URL against a fixed list.
- Server.Errors: the shared key, the approval header, body and arguments come as the results of their checks; the reading side behind the same middleware is one arbitrary outcome.
- AgentRun.Run: wall time and revocation are the state of the context at the end and before steps and calls, because they come from outside the loop.
- EbicsFetch.NothingAcknowledgedIsLost: one run at a time and no other writer in the directory, which is what the timer of the service provides.
- EbicsKeys.BankKeysAreVouchedFor: assumes that the library reads back the keyring it has written, because its file format is not modelled; a save writes the whole file, nothing without an error, or throws.
- EbicsKeys.EveryTwinHasItsOrigin: assumes that a save that fails or dies leaves the whole file or nothing, because half a file is no keyring of any run; `EbicsKeys.OldOrDelivered` needs no such assumption.

Not part of the model:

- Sockets, TLS, HTTP headers other than the named ones, process creation and pipe internals: they are steps that may fail at any time.
- SHA-256 is an arbitrary function; where two inputs with one hash would matter, the statement names the collision.
- Lone surrogates in texts, which the canonical encoding refuses with an exception: a character here is a Unicode scalar value.
- The rate limit of the previews, the payload of a preview inside the job protocol, log lines and the shutdown of the pools.
- The bytes of JSON in the agent: marshalling is taken as the identity on JSON values, so the order of members, repeated names, case-insensitive field names and the decoder's nesting limit are not seen.
- The wording of the agent's fixed messages, the tool protocol library and the bearer transport.
- The crypto and protocol library of the EBICS scripts, the date window and configuration checks, the listing of digests on the screen.
- LinkedIn statistics beyond their days (the projections of rows and posts, the sums themselves), the Google and Bing report projections, SharePoint, the desktop runner, the app store code and the probe scripts: field whitelists, user interface and plumbing that would add only easy members.
