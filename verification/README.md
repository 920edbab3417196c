# Verified model of the replicated group chat

The system is a group chat whose servers agree on an order of commands with a hand-written Raft
(`server/raft.go`) and apply the committed commands to a key-value store of users and groups
(`server/raft_server.go`, `server/storage.go`). This project models the consensus module, the
cluster it runs in, the disk store and the command dispatch, and proves what they keep.

How it is laid out:

- `Chat.dfy`, `ChatMachine.dfy`, `ChatProofs.dfy`, `Membership.dfy`, `Users.dfy`: the commands, the effect of
  each of them on the store, and what the store holds after any sequence of them.
- `Restart.dfy`: what happens to the store when commands are applied again after restarts.
- `Logs.dfy`, `Consensus.dfy`: logs, and one server's consensus module as a value with one function
  for every section of code that runs under its mutex.
- `RaftModule.dfy`, `Storage.dfy`: the same module, the disk store and the server as objects that
  are updated in place, with the loops of the original, proved to do what the functions say.
- `Protocol.dfy`: the cluster. Any finite set of servers, a network that loses, delays, reorders
  and repeats messages, and one step per critical section. History variables record who won which
  term, who voted and acknowledged what; no step reads them (`HistoryIsNeverRead`).
- `Invariants.dfy`, `Frames.dfy`, `Completeness.dfy`, `Elections.dfy`, `Replication.dfy`,
  `Safety.dfy`: the invariant, and its preservation by every step.
- `Theorems.dfy`, `Leaders.dfy`, `Validity.dfy`, `Replicas.dfy`: what follows for whole runs.
- `Votes.dfy`, `Outcomes.dfy`: what the handlers achieve, stated on logs and fields: who gets a vote,
  which requests are accepted, how far a leader commits, what a wake-up emits.
- `Progress.dfy`: from every state of a checked run any majority can go on to apply a new command.
- `Durability.dfy`: one server that crashes and restarts.
- `Scenarios.dfy`, `Limits.dfy`, `Erasure.dfy`, `Fork.dfy`: runs of five servers that break when one
  of the four checks that the code leaves out is skipped.
- `Exactness.dfy`: what a step that fails one of these checks does, as exact conditions.

Points where the code departs from the Raft paper, and how the model treats them:

- Stepping down forgets the vote even when the term does not change, so "one vote per server and
  term" is false. Election safety rests on a finer invariant: a server votes for at most one
  *other* server in a term, and a server that did so is neither candidate nor leader of that term.
- A vote request is built by its own goroutine from the log of that moment, possibly after the
  candidacy it belongs to is over. The model builds it at any later time.
- A follower bounds the commit index by its whole log, not by the last new entry.
- Rejections never carry conflict information, so every rejection rewinds the leader to 0.
- A late vote reply re-runs the start of a leader's term on a sitting leader.
- The comment at `server/raft.go:269` expects two leaders in one term; the step-down there is shown
  never to happen to a leader.

The code releases the mutex between the vote that wins an election and the start of leadership
(`server/raft.go:427`), and between the check that a server leads and the building of its requests
(`server/raft.go:549-575`). These are steps of their own here, and so anything can happen in
between.

The run theorems hold for runs that make four checks which the code does not make:

- a reply to a vote request does not set a candidate back into a term behind its own
  (`server/raft.go:418-421`);
- a start of leadership finds a leader, or a candidate of an election that is won
  (`server/raft.go:427`, `server/raft.go:452-460`);
- a request is built by a server that still leads the term that the request names
  (`server/raft.go:558-575`);
- a success reply changes a leader's indexes only in the term of the request it answers
  (`server/raft.go:594-598`).

None of them can be dropped. `Limits.dfy` has, for each, a run of five servers that makes every
check up to its last step, skips this one there, and breaks: a term decreases, a term gets two
leaders, a server gets an entry ahead of its own term, a next index gets beyond the end of the
leader's log. The third check has two more such runs: one in which the build itself would read past
the end of the log, and one (`Erasure.dfy`) in which a server loses an entry that it acknowledged in
its present term. `Fork.dfy` takes one skip of the fourth check to the end: two servers apply
different commands at one index.

`Exactness.dfy` gives the conditions. In every run of the code: a vote reply keeps the term exactly
if it makes the first check; a new leader holds its own term exactly if its start makes the second;
a build reads in range exactly if the next index is not beyond the log; a success reply leaves the
next index in range exactly if it ends within the log, and is an acknowledgement in the leader's own
term exactly if it makes the fourth. In runs that made every check so far: a request of a pending
round stands for a prefix of the log of the leader of its term exactly if its sender's log is such a
prefix, which it is while the sender makes the third check. Replies that are merely late are covered
by the run theorems: votes counted for an election that is over, rejections of an earlier term, and
steps down into the present term pass.

Where the repository's own README says that logging out removes all information related to a user,
the code removes the user and the membership and keeps messages and likes. The model follows the
code.

## Model

| member | source | states |
|---|---|---|
| Logs.SpliceIsMerge | server/raft.go:276-303 | for log-matching logs, the overlap search and splice keep my log if the leader's is a prefix of it and take the leader's otherwise, wherever the request starts |
| Completeness.UpToDateHas | server/raft.go:210-217 | a log that passes the up-to-date check against a log with a committed prefix has that prefix too |
| Completeness.LeaderCompleteness | server/raft.go:594-613 | what a majority acknowledged up to an entry of the leader's own term was in the log of every later leader when it was elected |
| Completeness.PrefixesComparable | server/raft.go:594-613 | any two committed prefixes are comparable |
| Elections.BecomeFollowerOk | server/raft.go:442-450 | a server may forget its vote on a later term, and on giving up a candidacy in the same term |
| Elections.TimeoutOk | server/raft.go:368-376 | starting an election keeps the invariant |
| Elections.GrantOk | server/raft.go:207-219 | granting a vote keeps it: nobody else got this server's vote in the term, and the voter's log is on record |
| Elections.VoteRequestOk | server/raft.go:190-225 | the whole vote request handler keeps the invariant, and its reply is backed by a recorded vote |
| Elections.FreshTerm | server/raft.go:422-428 | a candidate with a majority wins a term that nobody has won |
| Elections.WinOk | server/raft.go:452-460 | becoming leader as a candidate whose present election is won keeps the invariant |
| Elections.StartOk | server/raft.go:427-427 | a spawned start of leadership that passes the check keeps the invariant, however late it runs, and on a sitting leader too |
| Elections.VoteReplyOk | server/raft.go:407-432 | every branch of the vote reply handler keeps the invariant, also for replies of earlier elections, as long as no term is set back |
| Replication.SubmitOk | server/raft.go:159-170 | a leader's append keeps the invariant |
| Replication.BuiltAppendOk | server/raft.go:558-575 | built by a server that still leads the term of the round, its indexes are in range and it stands for a prefix of the leader's log |
| Replication.SpliceRequest | server/raft.go:276-303 | accepting a request merges the leader's log up to the request's end |
| Replication.TakeOk | server/raft.go:276-310 | accepting a request keeps the invariant and acknowledges what was sent |
| Replication.TakeKeepsCommit | server/raft.go:284-310 | accepting a request keeps every committed entry and sets the commit index to the leader's if that is greater |
| Replication.AppendOk | server/raft.go:251-319 | the whole AppendEntries handler keeps the invariant, and its reply is backed by a recorded acknowledgement |
| Outcomes.AppendReplyTerm | server/raft.go:251-319 | the reply's term is the greater of the two in every branch; a stale request changes nothing, any other one finds or leaves a follower |
| Outcomes.AcceptedIff | server/raft.go:272-276 | a request in flight is accepted by exactly those servers that are not in a later term and have everything the leader's log has before its entries |
| Outcomes.AcceptedIffHasSendersPrefix | server/raft.go:272-276 | the same for the log that the sender had when it built the request |
| Outcomes.CommitsTheGreatest | server/raft.go:594-613 | a success reply that counts leaves the commit index at the greatest index above the old one with an entry of the leader's term that some majority of servers is known to have, or where it was, and sets this peer's indexes only |
| Outcomes.LeaderIsCaughtUp | server/raft.go:594-613 | in every state of a checked run a leader with peers has committed every entry of its term that some majority is known to have |
| Outcomes.WakeUpEmitsAll | server/raft.go:649-676 | after a wake-up lastApplied is the commit index and the stream is exactly the log up to there |
| Outcomes.LaterReplyStepsDown | server/raft.go:588-592 | a reply of a later term makes any server a follower of that term without a vote |
| Outcomes.LaterVoteReplyStepsDown | server/raft.go:412-421 | so does, for a candidate, a vote reply of a term beyond the election's; other replies that grant nothing change nothing |
| Outcomes.RejectionGoesBack | server/raft.go:624-641 | a rejection moves the next index to just behind the last entry of the conflict term, or to the conflict index if there is none |
| Outcomes.LeadersStartOver | server/raft.go:407-411 | a new leader, and a sitting one on a late vote reply, takes all peers to have nothing and starts them at the end of its log |
| Outcomes.VoteSpawnsIff | server/raft.go:422-428 | a counted vote spawns a start of leadership exactly if the voters counted are a majority |
| Outcomes.TimeoutStartsElection | server/raft.go:368-376 | a timeout leads into the next term, as a candidate with its own vote |
| Outcomes.BuiltFields | server/raft.go:558-575 | a request carries the entries from the peer's next index on, the entry before them, and the commit index |
| Votes.VoteGrantedIff | server/raft.go:190-225 | a vote is granted exactly if the voter is free to and the candidate's log is not behind its own; the reply's term is the greater of the two either way |
| Votes.PrefixGetsVote | server/raft.go:207-219 | a candidate that has everything the voter has gets the vote |
| Votes.OneOfTwoGetsVote | server/raft.go:210-214 | of any two servers at least one gets the other's vote in a new term |
| Votes.SomeoneGetsAllVotes | server/raft.go:207-219 | in every state of a checked run some server of any set gets the votes of all others in it, in any term new to them |
| Progress.CommandCanBeApplied | server/raft.go:159-676 | wherever a checked run stands, the servers of any majority of at least two can go on by checked steps until all of them have handed a new command to their apply streams, at one position |
| Replication.CommittableIsCommitted | server/raft.go:601-612 | such an index is acknowledged by a majority |
| Replication.RewindsToZero | server/raft.go:624-639 | a rejection sends the leader back to index 0 |
| Replication.AppendReplyOk | server/raft.go:588-642 | every branch of the reply handler keeps the invariant, also for rejections of earlier terms, if a success counts only in its own term |
| Safety.EmitKeepsInv | server/raft.go:649-676 | emitting keeps the stream equal to the log up to lastApplied |
| Safety.StepTags | server/raft.go:378-404 | messages about votes name an election that their candidate started, in the term they carry |
| Safety.StepKeepsInv | server/raft.go:159-676 | every step that passes the checks keeps the invariant |
| Safety.RunInv | server/raft.go:159-676 | it holds in every state of every checked run |
| Safety.RunPrecedes | server/raft.go:159-676 | along a checked run terms, commit indexes, committed entries, streams, leader logs and acknowledgements only grow |
| Theorems.ElectionSafety | server/raft.go:368-460 | no term has two leaders, at any two moments of a run |
| Theorems.LeaderKeepsItsTerm | server/raft.go:268-272 | the same-term step-down never fires on a leader |
| Theorems.LogMatchingInRun | server/raft.go:276-303 | logs of any two servers at any two moments that agree on the term at an index agree up to it |
| Theorems.RequestMatchesLogs | server/raft.go:556-574 | the same between a log and a request in flight |
| Theorems.LeaderCompletenessInRun | server/raft.go:594-613 | what a server counts as committed is in the log of every leader of a later term, whichever moment comes first |
| Theorems.CommittedLogsComparable | server/raft.go:305-310 | committed logs of any two servers at any two moments are comparable |
| Theorems.StateMachineSafety | server/raft.go:649-676 | two servers never hand different commands to the apply stream at one index |
| Theorems.AppliedExactlyOnce | server/raft.go:649-676 | the emitted stream is the log up to lastApplied, each entry once, with its own index, and only grows |
| Theorems.NothingCommittedIsLost | server/raft.go:284-310 | nothing at or below a commit index is changed or removed, and terms and commit indexes never decrease |
| Theorems.RequestProvenance | server/raft.go:556-574 | every request in flight, however old, was built by its sender while that led the term, and reaches the end of the log it had then |
| Theorems.FollowerCommitSound | server/raft.go:299-310 | every accepted request leaves the commit index at the greater of the old one and the request's, within the log |
| Theorems.FollowerTakesSendersLog | server/raft.go:276-310 | and leaves the follower with the whole log and the commit index that the sender had when it built the request |
| Theorems.FollowerCommitsLeadersEntries | server/raft.go:299-310 | and everything up to the new commit index is in the log of every later leader of that term or of a later one |
| Theorems.CommittedReachesLaterLeader | server/raft.go:594-613 | a committed prefix is in the log of every leader of a later term, whichever moment comes first |
| Validity.EveryEntryWasSubmitted | server/raft.go:159-170 | every entry of every log was handed by a client to the leader of its term, as that leader's entry at this position |
| Validity.EveryCommandWasSubmitted | server/raft.go:649-676 | so was every command on an apply stream |
| Validity.OneSubmissionEach | server/raft.go:159-170 | no two positions share a submission, and no two submissions of a term share a position |
| Leaders.ReplyBacked | server/raft.go:594-599 | a reply handler that raises a matchIndex has a success reply of its own term for it |
| Leaders.MatchIndexSound | server/raft.go:596-599 | every matchIndex of a leader is backed by a reply of that peer in this term, and the peer's log has that prefix while it stays in the term |
| Leaders.IndexesInRange | server/raft.go:556-574 | log terms are sorted and within 1..currentTerm, and nextIndex, matchIndex, commitIndex, lastApplied and request indexes are in range |
| Leaders.WholeRequestAccepted | server/raft.go:276-303 | a request that starts at index 0, whenever it arrives, is accepted by every server that is not in a later term, which then has all of it as a prefix of its log |
| Leaders.OneRewindCatchesUp | server/raft.go:623-641 | after one rejection the next request carries the whole log, and whenever it arrives, any server not in a later term accepts it and ends with the leader's log as a prefix |
| Leaders.AcceptedRequestsCommute | server/raft.go:276-310 | two accepted requests of one term can be taken in either order, and one of them twice, with the same result |
| Limits.TermSetBackWithoutGuard | server/raft.go:418-421 | after a checked run of five servers, one unchecked vote reply makes a term decrease |
| Limits.TwoLeadersWithoutGuard | server/raft.go:427-427 | after a checked run of five servers, one unchecked start of leadership makes two leaders of one term |
| Limits.EntryAheadWithoutGuard | server/raft.go:558-575 | after a checked run of five servers, one request built by a former leader gives a server an entry of a later term than its own |
| Limits.BuildOutOfRangeWithoutGuard | server/raft.go:558-565 | a checked run of five servers after which a pending build of a former leader would read past the end of its log |
| Limits.IndexOutOfRangeWithoutGuard | server/raft.go:594-598 | after a checked run of five servers, one unchecked reply takes a leader's next index beyond the end of its log |
| Erasure.AcknowledgedEntryErasedWithoutGuard | server/raft.go:558-575 | after a checked run of five servers, one unchecked request that carries no entry ahead of its term makes a server drop an entry that it acknowledged in its present term, and two accepted requests of one term no longer commute |
| Fork.DifferentCommandsApplied | server/raft.go:594-613 | a run of five servers in which a single step fails its check, and two servers hand different commands to the apply stream at one index |
| Exactness.TermKeptIff | server/raft.go:407-432 | a vote reply keeps the term from decreasing exactly if it passes the check |
| Exactness.WinnerHoldsItsTermIff | server/raft.go:427-460 | in every state of every run of the code, a server that a spawned start makes leader has its own vote and a majority's for its present term exactly if the start passes the check |
| Exactness.SameTermMayStart | server/raft.go:427-427 | while every check was made, comparing the term again is enough to pass |
| Exactness.NextIndexInRangeIff | server/raft.go:594-597 | in every state of every run of the code, a success reply leaves the next index in range exactly if it ends within the leader's log |
| Exactness.CheckedReplyEndsWithin | server/raft.go:594-597 | a reply that passes the check does, while every check was made |
| Exactness.MatchIndexBackedIff | server/raft.go:596-598 | in every state of every run of the code, the matchIndex that a success reply sets is an acknowledgement in the leader's own term exactly if the reply passes the check, and is backed by one exactly then, or if it is -1 or acknowledged once more |
| Exactness.RequestStandsIff | server/raft.go:558-575 | in runs checked so far, a request of a pending round stands for a prefix of the log of the leader of its term exactly if its sender's log is a prefix of that log, which is all of it while the sender makes the check |
| Exactness.BuildInRangeIff | server/raft.go:559-565 | in every state of every run of the code, what a build reads is in range exactly if the next index is not beyond the end of the log |
| Exactness.CheckedBuildInRange | server/raft.go:559-565 | a build that makes the check reads in range, while every check was made |
| Exactness.EntryAheadIff | server/raft.go:558-575 | in runs checked so far, a request carries an entry ahead of its term exactly if its sender's log ends in one that the request reaches |
| Exactness.EntryAheadTakenIff | server/raft.go:276-303 | an accepted request leaves an entry ahead of its server's term exactly if it carries one |
| Protocol.HistoryIsNeverRead | server/raft.go:159-676 | the history variables decide neither which steps are enabled, nor which pass the checks, nor what they do |
| Durability.ReachableOk | server/raft.go:707-725 | through any events and crashes, checked or not, a candidate keeps its own vote and terms stay non-negative |
| Durability.RestartHandsOutNothingUncommitted | server/raft.go:121-134 | after a restart nothing is handed to the apply stream that an accepted request or a counted reply has not committed since |
| Durability.CrashAfter | server/raft.go:707-725 | which events a crash right after them undoes, and what it finds again after the others |
| Durability.BoundStaysIff | server/raft.go:407-460 | an event keeps a vote on record in memory and on disk exactly if it is no reply that sets a candidate back into the vote's term or an earlier one, and no spawned start that finds the vote's term |
| Durability.BoundThroughoutIff | server/raft.go:707-725 | so the vote is on record throughout a run of events and crashes exactly if all of them are harmless in this sense |
| Durability.VoteIsDurable | server/raft.go:207-222 | a vote granted by a follower with a non-empty log is never followed by a vote for anybody else in the term, through any crashes and other harmless events |
| Durability.VoteDurableIff | server/storage.go:266-280 | in every state that any events reach, a vote for a peer is durable exactly when the log is not empty and the voter then a follower, or there is no second peer to ask for it |
| Durability.HarmfulLosesVote | server/raft.go:407-460 | after any event that is not harmless, at most one request of the term's leader frees the vote for anybody else |
| Durability.StartLosesVote | server/raft.go:427-427 | a sequence of events from a new server at whose end a spawned start of leadership does so |
| Durability.SetBackLosesVote | server/raft.go:418-421 | and one at whose end a late vote reply does so |
| Durability.AcknowledgedIsDurable | server/raft.go:276-317 | acknowledged entries survive any events and crashes, checked or not, unless a later accepted request replaced them |
| RaftModule.ConsensusModule.constructor | server/raft.go:111-134 | a new module starts from the saved term, vote and log if the saved log is not empty, and from scratch otherwise; a follower with nothing committed or applied either way |
| RaftModule.ConsensusModule.RequestVoteHelper | server/raft.go:190-225 | exact new state, reply and saved state |
| RaftModule.ConsensusModule.StartLeader | server/raft.go:452-460 | the loop resets both indexes of every peer and nothing else |
| RaftModule.ConsensusModule.HandleVoteReply | server/raft.go:407-432 | the exact new state in every branch; a winning vote only spawns the start of leadership |
| RaftModule.ConsensusModule.RunStart | server/raft.go:427-427 | what a spawned start does to whatever state it finds |
| RaftModule.ConsensusModule.Submit | server/raft.go:159-170 | a leader appends and saves, any other server does neither |
| RaftModule.ConsensusModule.LeaderSendAEs | server/raft.go:548-556 | only a leader begins a round |
| RaftModule.ConsensusModule.BuildAppendEntries | server/raft.go:558-574 | the request for the saved term, with everything from the peer's next index on |
| RaftModule.ConsensusModule.FindInsertion | server/raft.go:281-293 | the loop finds the exact length of the overlap |
| RaftModule.ConsensusModule.TakeEntries | server/raft.go:276-310 | the exact new log and commit index |
| RaftModule.ConsensusModule.AppendEntriesHelper | server/raft.go:251-319 | exact new state, reply and saved state |
| RaftModule.ConsensusModule.CountMatches | server/raft.go:603-608 | the loop counts the peers that match, and this server |
| RaftModule.ConsensusModule.HandleAppendEntriesReply | server/raft.go:588-642 | the exact new state; the commit loop ends at the greatest index of the leader's term that some majority has; notified exactly when the commit index moved |
| RaftModule.ConsensusModule.CommitChanSender | server/raft.go:649-676 | emits exactly the entries between lastApplied and commitIndex, with their indexes, and raises lastApplied to the commit index |
| Storage.DiskStore.GetGroup | server/storage.go:119-133 | finds exactly the keys that hold a group |
| Storage.DiskStore.JoinGroup | server/storage.go:154-181 | adds the participant, creating the group with the drawn id if there is none |
| Storage.DiskStore.RemoveUserInGroup | server/storage.go:183-200 | removes a participant with a non-empty name, and always succeeds |
| Storage.DiskStore.AppendMessage | server/storage.go:282-296 | stores the message under the message count, truncated to 32 bits |
| Storage.DiskStore.LikeMessage | server/storage.go:298-332 | the exact new store, own messages and repeated likes ignored |
| Storage.DiskStore.UnLikeMessage | server/storage.go:334-363 | the exact new store, own messages and missing likes ignored |
| Storage.DiskStore.HasData | server/storage.go:266-280 | true exactly for a saved non-empty log |
| Storage.Server.constructor | server/raft_server.go:36-47 | the peers of a server are the others of 1..5, in order |
| Storage.Server.PersistData | server/raft_server.go:158-191 | the dispatch has exactly the effect of the command |
| ChatProofs.EraseApply | server/storage.go:154-181 | the random group id affects nothing but the group id |
| ChatProofs.IdsDoNotMatter | server/raft_server.go:158-191 | up to group ids the store is determined by the commands |
| ChatProofs.GroupAfter | server/storage.go:282-363 | after any commands whatever: whether a group exists, which message numbers it has, who wrote what under them, and who likes it, read off the commands since its key was last taken by a user |
| ChatProofs.KeyNeverTaken | server/storage.go:92-92 | all the commands count exactly if no user whose key is the group's name logs in or out |
| ChatProofs.MessagesAreASequence | server/storage.go:282-296 | the message map is the sequence of appended messages exactly as long as there are at most 2^32 of them |
| ChatProofs.FirstMessageIsReplaced | server/storage.go:287-288 | beyond that the first number holds the latest message |
| ChatProofs.LikedByIsTheLastWord | server/storage.go:298-363 | a name likes a message exactly if it is not the author's and its last like or unlike since the append was a like, for messages appended without likes (GroupAfter covers the others) |
| Membership.MemberAfter | server/storage.go:154-200 | after any commands whatever: a user participates in a group exactly if the last join was not followed by a leave or gave no name, and under the name of that join |
| Membership.MemberIff | server/raft_server.go:165-188 | where joins and logouts name the actual group, a user is in a group exactly if it is the one joined last or was joined without a name |
| Membership.MembershipIsCurrentIff | server/storage.go:183-200 | there, every user is in exactly the group joined last, or in none after logout, if and only if no user without a name has moved on |
| Membership.MembershipIsCurrent | server/raft_server.go:165-188 | in particular while every join gives a name |
| Membership.NamelessUserInTwoGroups | server/storage.go:186-188 | a user without a name ends up in two groups |
| Membership.GroupLostToLogin | server/storage.go:92-92 | a group is gone when the user whose key is its name logs in |
| Users.UserAfter | server/storage.go:80-117 | after any commands the record under a key is exactly the user of the last login under it, unless that user logged out or a group of that name was joined since |
| Users.StoredUnderItsId | server/storage.go:80-117 | what is stored under the key of a user id is the record of the user with that id |
| Users.GroupIdAfter | server/storage.go:154-181 | a group is stored under its name and keeps the id drawn when it was created |
| Users.BareAfter | server/storage.go:282-332 | where messages are appended with bare likes, all likes are bare |
| Restart.TranscriptKeptIff | server/raft.go:121-134 | applying commands again after any number of restarts keeps the number of a group's messages exactly if the earlier runs append none to it, or a user takes its key |
| Restart.MembersKept | server/raft.go:121-134 | it never changes who is in a group |
| Restart.GroupKeptIff | server/raft.go:121-134 | in the kept store a group has the same messages, likes and participants exactly then |
| Restart.MessageRepeated | server/raft.go:121-134 | one message and one restart leave the message twice |
| Replicas.StoreIsWhatWasSaid | server/raft_server.go:158-191 | in every run each server's groups, messages, likes and participants are what the commands it applied say |
| Replicas.ReplicasAgree | server/raft_server.go:158-191 | a server that applied no more entries than another stores, up to group ids, what the other's stream says after that many commands |
| Replicas.EqualProgressEqualStores | server/raft_server.go:158-191 | servers that applied equally many entries store the same up to group ids |

## Left out

- ElectionSafety: and the run theorems below assume the four checks named above; what a step does that fails one is the subject of `Limits.dfy`, `Erasure.dfy`, `Fork.dfy` and `Exactness.dfy`.
- LeaderKeepsItsTerm: for checked runs.
- LogMatchingInRun: for checked runs.
- RequestMatchesLogs: for checked runs.
- LeaderCompletenessInRun: for checked runs.
- CommittedLogsComparable: for checked runs.
- StateMachineSafety: for checked runs.
- AppliedExactlyOnce: for checked runs.
- NothingCommittedIsLost: for checked runs.
- FollowerCommitSound: for checked runs.
- MatchIndexSound: for checked runs.
- IndexesInRange: for checked runs.
- OneRewindCatchesUp: for checked runs.
- AcceptedRequestsCommute: for checked runs.
- EveryEntryWasSubmitted: for checked runs.
- StoreIsWhatWasSaid: for checked runs.
- ReplicasAgree: for checked runs; broadcasts to chat clients are not modelled.
- EqualProgressEqualStores: for checked runs.
- RunPrecedes: for checked runs.
- AcceptedIff: for checked runs, as LeaderIsCaughtUp, WakeUpEmitsAll and SomeoneGetsAllVotes.
- CommandCanBeApplied: for checked runs; that servers do go on in this way depends on timers and the network, and is not claimed.
- RequestStandsIff: for runs checked so far, as EntryAheadIff; a build that would read out of range is no step of the model.
- StartOk: a start that finds a follower, or a candidate whose present election is not won, fails the second check; `WinnerHoldsItsTermIff` covers it.
- WinOk: a candidate that has stepped down before its start of leadership runs fails the second check; `WinnerHoldsItsTermIff` covers it.
- VoteReplyOk: a reply that would set the term back fails the first check.
- AppendReplyOk: a success reply of an earlier term fails the fourth check.
- ReplyBacked: the same.
- BuiltAppendOk: a request built by a server that no longer leads the term fails the third check; `RequestStandsIff` says when it still stands for what that term's leader had.
- ConsensusModule.RunStart: the body of `startLeader` is one step, though the spawned one takes no lock.
- RunInv: servers of a run do not crash; crashes are treated for one server in `Durability.dfy`.
- AcknowledgedIsDurable: a `SetState` call is taken to be atomic and to succeed, and saved values to be read back unchanged.
- ConsensusModule.Submit: forwarding a command to the leader, and the leader id it is routed by, are not modelled.
- ConsensusModule.HandleVoteReply: the shared vote counter of an election is kept as the set of servers counted, since each peer answers an election once.
- ConsensusModule.CommitChanSender: the term in a commit entry is the current term, as in the code, and nothing is claimed about it.
- DiskStore.GetGroup: a key that holds a user is taken to decode to no group.
- MembershipIsCurrentIff: assumes that joins and logouts carry the group the user is actually in, and that no group is named like the key of a user who logs in or out; `Membership.MemberAfter` assumes neither.
- GroupKeptIff: for groups with at most 2^32 messages; keys that hold users are not compared; that the earlier runs are prefixes of the committed commands is assumed, since runs of the cluster have no crashes.
- Integer widths: terms, indexes and server ids are unbounded integers; user ids, group ids and message numbers have 32 bits.
- The Dead state and `Stop`: nothing in the repository stops a module.
- Timers, random timeouts, goroutine scheduling, channel capacity and every liveness claim: a timeout, a send or a wake-up may happen at any moment.
- Commands whose event letter and payload disagree, or whose nested messages are missing: the original dereferences nil.
- Connections, reconnection, peer health and the gRPC layer: network plumbing.
- Chat streaming, connection stores, client parsing and printing, and the main programs: input and output.
