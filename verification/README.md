# Verified model of gopherd

gopherd is a process supervisor that runs as PID 1. This project models its
hardest logic in Dafny and proves what the code and its documentation promise
of it, for every input, every run and every interleaving.

`dafny verify dfyconfig.toml` checks everything.

## What is modelled

**The supervisor protocol** (run.go, daemon.go, lifecycle.go and the run state of
service/service.go). `World.dfy` is the state the daemon's lock protects: service
instances, `services`, `pidMap`, the shutdown sequence, and the children the kernel
holds. `Protocol.dfy` is a transition system over any number of goroutines: the
reap loop, the dispatcher, senders, restart handlers, check callbacks, control
requests, ordered restarts, reloads and shutdown. Taking the lock and testing
`shuttingDown` is one step and the rest of the section another, so that everything
that happens outside the lock, such as the swap that sets the flag, can fall in
between. Invariant.dfy, Stability.dfy, Steps.dfy, StartSteps.dfy, SweepSteps.dfy,
RequestSteps.dfy and Safety.dfy prove one invariant over all interleavings by rely
and guarantee: each step keeps its goroutine's own invariant and disturbs nobody
else's. `Histories.dfy` reads a run backwards, from a goroutine in the middle of an
ordered restart or a reload to where it began. `Theorems.dfy` draws the promises
from the two. `Effects.dfy` says whom each step tells to stop, and that nobody waits
for a process that was not told; `Outcomes.dfy` what comes of requests, starts and
exits; `Progress.dfy` that a booked restart can always get through. `Daemon.dfy` has the locked sections as they are written, loops over
maps that update fields in place, and proves that each does what the transition
system takes it to do; ReloadLoops.dfy has the invariants of its reload. `Reload.dfy`
says what a reload leaves behind.

**From configuration to services** (service.New in service/service.go, and the parts
of daemon.go around it) in Services.dfy: the validation of a process, its
comparison with a running one, and the start order, which comes from the topological
sort below and is what the transition system's reloads and shutdowns use. Policies.dfy
goes from the text of a configuration to what the supervisor does: about an exit, a
failed check, a control restart and a reload.

The initial state has the configured services with nothing running. A state at the
end of boot is one that is reached from there by starts.

**Dependency ordering** (internal/order/order.go) in Graphs.dfy, Strings.dfy and
Ordering.dfy: both Kahn variants, with the queue, the in-degree table and the
duplicate-edge table, against graph-theoretic specifications.

**The cron search** (internal/cron/cron.go) in Calendar.dfy, Cron.dfy and
CronForms.dfy: parsing, the grammar of the accepted texts and what each form selects,
and the search that skips months, days and hours, in a zone of fixed offset. A time
is a calendar minute, and `Calendar` proves that calendar order and the count of
minutes agree. The argument of `Next` is represented by the minute that contains
it; since the candidates are whole minutes, its seconds never matter.

**The YAML subset** (internal/yml/parser.go) in Text.dfy and the Yaml files. `Read`
gives the tree that a list of lines stands for, by cutting it at its indentation;
the parser, which threads a position through one array and stops where it cannot
go on, is proved to accept exactly the files that have a tree. `YamlFlow.dfy` has a
grammar of inline values and `YamlDocs.dfy` one of documents: blocks of keys and of
items with values that are plain, in single or double quotes, inline lists and maps
or literal blocks with any chomping, and with blank lines and comments anywhere.
`YamlFiles.dfy` proves that each, written out, is read as the tree it stands for, and
`YamlRoundTrip.dfy` writes trees as such documents. Text is a sequence of Unicode
characters.

**The log stream** (internal/logger/writer.go and the sanitizer in
internal/logger/target.go) in Sanitizer.dfy, Escapes.dfy, Splitter.dfy,
LineWriter.dfy, Slots.dfy and Follow.dfy: the line splitter, the additional targets,
the history ring, the escape-sequence stripper, the fan-out to subscribers, the slots that followed lines
travel in, and the whole way from bytes written to lines read by a follower.

Wrappers.dfy has the `Option` and `Result` used throughout.

Where code and comments differ the model follows the code. The comment on
`domStar` and `dowStar` (internal/cron/cron.go:53) counts `*/1` as a star; the code
takes only a field that is `*` alone. A step close to the largest 64-bit integer
makes the loop over a range (internal/cron/cron.go:147) wrap around and set bits
below it; `Cron.ItemExact` says exactly when. The comment on `maxParseDepth` does not say
that depth counts from 0, so 65 nested blocks parse and 66 do not. The comment on
`blockIndicator` (internal/yml/parser.go:146) says that quoted values never match; a
quoted list item with `: |` or `: >` inside does and is refused, and
`YamlRoundTrip.QuotedItem` says exactly when.

## Model

| member | source | states |
|---|---|---|
| `Theorems.ChannelSafe` | run.go:495-510 | In every reachable state no send on a closed `restartCh`, no second close of any channel and no negative wait group has happened; once `restartCh` is closed no sender is left, though the flag is set outside the lock |
| `Theorems.NothingStartsAfterSweep` | daemon.go:434-446 | From the moment the winning `initiateShutdown` has taken `d.mu`, no instance is ever started again and no service reconfigured |
| `Theorems.StopAllStopsAll` | daemon.go:339-446 | When `stopAllDone` is closed no current service runs, in all three modes; every service process left belongs to an instance that a reload detached, stopped and silenced. Whom the sweep stops on the way is `Effects.TellsExactly` |
| `Effects.TellsExactly` | daemon.go:339-430 | In every run, each step of each goroutine newly marks as stopped exactly the running instances it is meant to: the sweep its next service or, in simultaneous mode, all; a plain failure its requirers; an ordered restart the next of its list; a control restart its service; a reload what it removes or replaces; every other step nobody |
| `Effects.EveryWaitAsked` | daemon.go:362-430 | In every run, whoever waits for an exit waits for a process that is gone or was told to stop: the sweep in all modes, ordered restarts, reloads, senders and restart handlers |
| `Effects.EveryRequestAsked` | daemon.go:448-482 | The same of every request in the restart channel |
| `Effects.SweepTellsInOrder` | daemon.go:362-400 | When the sweep tells a service to stop, it is a current one, and nothing that has to be stopped before it, by any chain of edges, is running |
| `Theorems.StopOrder` | daemon.go:339-400 | Whenever the sweep is about to stop a service in reverse-dep mode, nothing ordered after it by any chain of after, before and requires is running; mirrored in dep mode |
| `Theorems.SequenceIsComplete` | daemon.go:388-399 | The loop for services missing from the shutdown sequence never has one to stop |
| `Theorems.PidMapExact` | daemon.go:281-319 | `pidMap[p] = s` exactly when `s` runs with pid `p`, and no instance has two live processes |
| `Theorems.ReapsOnlyTheDead` | run.go:276-338 | The reap loop handles a pid only after the kernel has handed over its exit status |
| `Theorems.PendingExact` | run.go:258-267 | `pendingRestarts` is the number of requests being sent, queued or handled plus the legs that ordered restarts hold |
| `Theorems.RequestsSettle` | daemon.go:239-263 | When a queued request settles, its instance has had a newer process than the one whose exit it waited for, unless the daemon is shutting down (as a failed start makes it), the instance was replaced, or its condition was unmet |
| `Outcomes.QueueInOrder` | run.go:258-267 | In every run, what was sent on `restartCh` is what the dispatcher took, in the same order, followed by what is still in it: nothing is lost, repeated or overtaken |
| `Outcomes.FailedStartShutsDown` | daemon.go:239-263 | A start made for a restart request or a leg of an ordered restart that leaves its service current but not running leads to a shutdown; otherwise the request ends or the restart goes on with the next leg |
| `Outcomes.StoppedWasTold` | service/service.go:919-955 | In every run, a process whose exit will count as intended was told to stop itself, by a step since its own start |
| `Outcomes.StartsOnlyHere` | daemon.go:281-319 | No other step than the locked section of `startService` starts a process |
| `Outcomes.ReapLoopEnds` | run.go:276-490 | The reap loop ends exactly if a shutdown has begun and no service process is left to be reaped |
| `Outcomes.DetachedExit` | run.go:374-388 | The exit of a process that a reload replaced or removed leads to no restart, no shutdown and no stop of another service |
| `Progress.RequestCanBeServed` | daemon.go:239-263 | While nothing holds the lock, no shutdown has begun and the channel has room, a request whose service has exited can get through, whatever else is queued: some sequence of steps leads to a new process of its instance |
| `Policies.ExitFollowsText` | run.go:374-478 | From the text of the configuration: an exit is followed by a restart exactly if its process was not told to stop and the text that applies says so; by a shutdown exactly for the three texts that say so and as the default of a long-running process; and the services newly told to stop are exactly the running ones whose process lists the failed one under requires, after a plain failure |
| `Policies.CheckFollowsText` | daemon.go:448-500 | From the text: a failed check books one request for, and stops, exactly the services whose action is a restart, up to the first whose action is a shutdown, which it then begins |
| `Policies.RestartFollowsText` | daemon.go:1019-1056 | A control restart becomes an ordered one exactly if it is to be waited for or the process takes its dependents along and has running ones; otherwise it stops its service and books its request |
| `Policies.ReloadFollowsText` | daemon.go:702-850 | In every run, from the text: a configured service goes on with its instance and pid if and only if it ran and its process agrees with the old one; it is started afterwards if and only if it is to be kept running and does not go on; and it is built from its new process, or the old one if it goes on, under the new policy |
| `Theorems.ReloadAllOrNothing` | daemon.go:702-850 | In every run: taking the lock changes no service, and a reload that finds the daemon shutting down changes nothing at all; its section leaves exactly the new names; each is the same running instance and pid if and only if it ran with an unchanged process configuration, and otherwise a new one that does not run; every live process no longer current was sent its stop with its exit actions ignored; the exits waited for are those of the replaced |
| `Theorems.ReloadWaits` | daemon.go:852-866 | Whenever a reload is past its waits, up to and in the forks it makes, every process that its own locked section replaced has exited |
| `Theorems.OrderedRestart` | lifecycle.go:196-221 | When an ordered restart has the lock to stop a service, the process that each listed service requiring it, directly or through others, had when this restart stopped it has exited, and so has that of every instance behind it; the list is the one made when the restart began |
| `Theorems.OrderedStarts` | lifecycle.go:222-235 | When an ordered restart starts a service, every process it stopped has exited, and the attempt to start each listed service that this one requires, directly or through others, has been made and has returned |
| `Theorems.ListingExact` | daemon.go:1019-1056 | A control restart lists the service and, if it takes its dependents along, exactly the running services that require it, directly or through others |
| `Theorems.ListingOrdered` | lifecycle.go:150-161 | Of two listed services, the one that requires the other, by any chain, comes later |
| `Theorems.DependentsOrdered` | lifecycle.go:150-161 | A listed service that requires another, by any chain, comes after it |
| `Histories.Whence` | lifecycle.go:178-235 | Every step that leaves a goroutine in the middle of an ordered restart or a reload comes from the only point before it; nothing else gets there |
| `Histories.JobOrigin` | daemon.go:1019-1056 | An ordered restart goes back to a control request that made its list |
| `Histories.ExitOrigin` | lifecycle.go:196-221 | Each exit an ordered restart has waited for was collected when it stopped that very instance, in its turn from the back |
| `Histories.StartsInOrder` | lifecycle.go:222-235 | At the `j`-th start of an ordered restart, the attempt at each earlier one was made since it began and has returned |
| `Histories.ReloadOrigin` | daemon.go:791-866 | The exits a reload waits for are those of the processes that its own locked section replaced |
| `Safety.InvAlways` | run.go:276-510 | The invariant of the supervisor holds in every reachable state; what it means is drawn out by the lemmas of Theorems, Effects, Outcomes and Policies |
| `World.OneProcessEach` | service/service.go:919-925 | Two unhandled children of one instance are the same process |
| `World.ForkKeeps` | daemon.go:281-319 | A start keeps the invariants of `services`, `pidMap` and the kernel's children |
| `World.ReapKeeps` | run.go:330-338 | So does the handling of an exit, which starts and reconfigures nothing |
| `World.ClosedStays` | service/service.go:1197-1205 | A closed exit channel stays closed, whatever the supervisor does |
| `Reload.ReloadExact` | daemon.go:774-835 | After a reload there are exactly the new names; a service keeps its instance and pid exactly if it ran with an unchanged process configuration, and is otherwise new and not running |
| `Reload.ReloadSilences` | daemon.go:722-831 | Every process that a reload leaves running but not current was sent its stop, with both exit actions set to ignore |
| `Reload.ReconcileKeeps` | daemon.go:702-835 | A reload keeps every invariant and undoes nothing |
| `Daemons.Daemon.FinishStart` | service/service.go:919-925 | A start gives the instance a new exit channel that is open, and clears its stopped mark |
| `Daemons.Daemon.StopService` | service/service.go:944-955 | A stop marks a running instance and changes nothing else; an instance that is not running is left alone |
| `Daemons.Daemon.MarkExited` | service/service.go:1020-1029 | The exit channel closes and the pid is gone |
| `Daemons.Daemon.StartLocked` | daemon.go:281-319 | The outcome of a start: replaced, already running, failed or started, each exactly when it should be; only the last changes the state, by one fork; it is a start of the transition system |
| `Daemons.Daemon.ReapManaged` | run.go:328-338 | The locked handling of a managed pid is one reap of the transition system |
| `Daemons.Daemon.ExitSection` | run.go:374-478 | The rest of the locked handling of an exit, with its action switch, is the step of the transition system |
| `Daemons.Daemon.StopNext` | daemon.go:368-386 | One turn of the sequential sweep, up to where it releases the lock, is the step of the transition system |
| `Daemons.Daemon.StopForRestart` | lifecycle.go:164-180 | A stop of an ordered restart is the step of the transition system |
| `Daemons.Daemon.RequestRestart` | daemon.go:1041-1052 | A plain restart books one request for the exit of the current process and stops it if it runs |
| `Daemons.Daemon.RestartLocked` | daemon.go:1019-1056 | The locked section of a control restart is the step of the transition system |
| `Daemons.Daemon.StopRequirersOf` | run.go:409-424 | A plain failure stops exactly the running services that require the failed one |
| `Daemons.Daemon.CheckFailed` | daemon.go:448-500 | The loop over the services books one request for each service to restart and stops it, up to the first whose action is a shutdown, as the transition system has it |
| `Daemons.Daemon.ReverseSeq` | daemon.go:353-360 | The shutdown sequence backwards |
| `Daemons.Daemon.StopAllAtOnce` | daemon.go:407-421 | Everything current that runs is stopped and its exit collected |
| `Daemons.Daemon.DependentClosure` | lifecycle.go:132-146 | Terminates with exactly the services that require the given one, directly or through others |
| `Daemons.Daemon.RunningDependentsLocked` | lifecycle.go:150-161 | The running ones among them, in start order |
| `Daemons.Daemon.RemoveServices` | daemon.go:722-740 | Services no longer configured, and only those, are silenced, stopped and forgotten |
| `Daemons.Daemon.NamesIn` | daemon.go:709-716 | The names of the configuration, a command standing in for an absent one |
| `Daemons.Daemon.BuildServices` | daemon.go:518-548 | One new instance per configured process, each under its name and with the entrypoint arguments and prefix in effect; otherwise the error of the first process rejected, with those before it built |
| `Daemons.Daemon.PreserveRunning` | daemon.go:791-832 | Unchanged running services get their instance back with the new policy; changed ones are silenced, stopped and waited for |
| `Daemons.Daemon.CollectToStart` | daemon.go:837-850 | The long-running services that do not run yet, in start order |
| `Daemons.Daemon.ReloadLocked` | daemon.go:702-850 | The locked section of reload, loop by loop, is the reconciliation of the transition system and keeps all invariants; after a passed dry run its error return cannot be reached |
| `Daemons.Daemon.Reload` | daemon.go:646-850 | Every error leaves the whole state and the configuration as they were, and is one that applies; it succeeds exactly if the daemon has started, the file was read, at most one process takes the entrypoint arguments, the services can be ordered, every process is valid and no shutdown has begun; then it is the reconciliation with a valid set-up, and a running service goes on with its instance and pid if and only if its new process agrees with the one it was built from on every field that affects the running process |
| `Daemons.CountEntrypoints` | daemon.go:674-684 | The number of processes that take the entrypoint arguments |
| `Daemons.DryRun` | daemon.go:693-700 | Passes exactly if every process is valid; otherwise the error of the first that is not |
| `Services.NewService` | service/service.go:242-347 | A process is accepted exactly if its schedule, signal, durations and actions are well formed, and then as what they mean; an error names a fault it has |
| `Services.ParseCheckActions` | service/service.go:303-310 | The actions of all checks, or a check whose action is malformed |
| `Services.SubstitutedAccepted` | daemon.go:693-700 | The entrypoint arguments and the prefix, put in after the dry run, change neither its verdict nor the error, the name or the policy |
| `Services.ProcessConfigChanged` | daemon.go:1122-1201 | Comparing field by field, true exactly if some field that affects the running process differs |
| `Services.PtrDiffers` | daemon.go:1203-1215 | Optional fields differ exactly if one is absent or their values do |
| `Services.ImagesAgree` | daemon.go:1122-1201 | The images of two processes are equal exactly if the processes agree on each field that affects the running process |
| `Services.ReloadGoes` | daemon.go:791-832 | After a reload a running service goes on exactly if its new process agrees, field by field, with the one it was built from; otherwise it is replaced, stopped and waited for |
| `Services.ReloadBuilds` | daemon.go:791-832 | After a reload every configured name stands for an instance built from its process, the old one if it goes on, under the policy of the new one |
| `Policies.ReloadStarts` | daemon.go:837-850 | A reload starts a service afterwards exactly if its process is to be kept running and it does not go on |
| `Policies.StartsAreOrdered` | daemon.go:837-850 | What a reload starts comes after everything that it is ordered after, and once |
| `Services.BuildOrderServices` | daemon.go:553-568 | The names and dependency lists of the processes, in order |
| `Services.StartOrder` | daemon.go:570-572 | Succeeds exactly if names are distinct, references known and the combined graph acyclic; the order then makes a set-up with everything a reload and any later shutdown rely on, whatever the entrypoint arguments; otherwise the error is that of the sort |
| `Services.SortedSetup` | daemon.go:686-691 | Any order that respects the combined graph of a well-formed configuration makes such a set-up |
| `Ordering.TopoSort` | internal/order/order.go:34-122 | Success gives each name once, in an order that respects every edge; failure names the first malformed process or, on a cycle, exactly the services on or behind one |
| `Ordering.SortsExactlyAcyclic` | internal/order/order.go:34-122 | It succeeds if and only if names are distinct, references known and the combined graph acyclic |
| `Ordering.SortedLists` | internal/order/order.go:43-107 | In terms of the lists: an order of the names respects the graph exactly if each service comes after all it lists under after and requires, and before all it lists under before |
| `Strings.LessExact` | internal/order/order.go:113-119 | The order of names in reports and layers is that of their first difference |
| `Ordering.RaisedOnce` | internal/order/order.go:109-119 | An input has one error, so both algorithms report the same |
| `Ordering.TopoLayers` | internal/order/order.go:129-208 | Layer `i` holds, sorted, exactly the names whose longest incoming dependency chain has `i` edges; failures as for `TopoSort` |
| `Ordering.LayersForward` | internal/order/order.go:129-208 | Edges lead to later layers, so none joins two members of one |
| `Ordering.LayeredLists` | internal/order/order.go:129-208 | In terms of the lists: each service is in a later layer than all it lists under after and requires, and in an earlier one than all it lists under before |
| `Ordering.LayeringAcyclic` | internal/order/order.go:129-208 | Layers exist only for acyclic graphs |
| `Ordering.SortAndLayersAgree` | run.go:146-151 | Both succeed or both fail, with the same error |
| `Ordering.CollectNames` | internal/order/order.go:35-41 | The names, or the first process that takes one a second time |
| `Ordering.BuildEdges` | internal/order/order.go:43-85 | The adjacency and in-degree tables of the combined graph, each edge once however often it is listed, or the first unknown reference |
| `Ordering.DrainQueue` | internal/order/order.go:87-107 | The queue takes off every name that can be and leaves exact counts for the rest |
| `Graphs.LeftoverIsBlocked` | internal/order/order.go:109-119 | What a maximal run cannot take off is exactly what lies on a cycle or behind one |
| `Calendar.MinutesStep` | internal/cron/cron.go:184-205 | Consecutive calendar minutes are one minute apart, across months, years and leap days |
| `Calendar.MinutesOrder` | internal/cron/cron.go:189-190 | Calendar order is the order of the minute count |
| `Calendar.LeapWithinEight` | internal/cron/cron.go:173-177 | Any eight years in a row contain a leap year, a skipped century included |
| `Calendar.WeekdayInFirstWeek` | internal/cron/cron.go:213-223 | The first seven days of a month fall on all weekdays |
| `Calendar.KnownWeekdays` | internal/cron/cron.go:213-223 | The weekdays of some known dates |
| `Calendar.WeekdayStep` | internal/cron/cron.go:213-223 | The next day has the next weekday, which with a known date fixes all of them |
| `Cron.Next` | internal/cron/cron.go:182-211 | The skipping search equals the search that tries every minute; its result is the least match strictly after the argument; for a valid schedule it is absent exactly for impossible ones. Which minutes match is `Cron.NextNamed` |
| `Cron.SearchLeast` | internal/cron/cron.go:179-181 | The minute-by-minute search finds the least match in range, or there is none |
| `Cron.NextNamed` | internal/cron/cron.go:179-223 | What `Next` returns is the first minute after its argument in a selected month, hour and minute on a day that day of month or day of week selects if both are restricted, and that the restricted one selects otherwise |
| `Cron.SearchSkip` | internal/cron/cron.go:191-207 | Jumping over minutes that do not match changes no result |
| `Cron.SomeRun` | internal/cron/cron.go:173-177 | A schedule that is not impossible matches within eight years of any date |
| `Cron.LimitIsEnough` | internal/cron/cron.go:173-211 | Within nine years the search fails if and only if no minute of the calendar ever matches, that is, day of week is `*` and every selected day and month is no date of any year |
| `Cron.LimitIsEnoughParsed` | internal/cron/cron.go:173-211 | For a schedule made from any accepted text, too, the search fails if and only if no minute of the calendar ever matches |
| `Cron.AddItem` | internal/cron/cron.go:147-149 | With additions that wrap around at 64 bits, the loop ends and adds to the mask exactly the values of the range at multiples of the step and those below it that the additions come back to |
| `Cron.ItemExact` | internal/cron/cron.go:98-152 | The bits of an item are the values it stands for if and only if its lower end is below twice the distance of the step from 2^63 |
| `Cron.SteppedExact` | internal/cron/cron.go:98-152 | The same for the text of any field that is a value and a step |
| `Cron.LargeStep` | internal/cron/cron.go:98-152 | The day-of-month field `2/9223372036854775807` sets the bit of day 0, which it does not stand for |
| `Cron.ParseField` | internal/cron/cron.go:98-152 | Accepted exactly if every item is well formed; the mask is the bits of all items; otherwise the first malformed item is reported |
| `CronForms.FormRead` | internal/cron/cron.go:98-170 | A star, a value or a range, each with a step or without, in numbers or names, is read with the ends and the step it shows; a value with a step goes on to the end of the field |
| `CronForms.ItemIs` | internal/cron/cron.go:98-170 | Whatever is accepted as an item is one of these forms |
| `CronForms.ReversedRefused` | internal/cron/cron.go:130-132 | A range the wrong way round is refused |
| `CronForms.FieldFormsRead` | internal/cron/cron.go:98-152 | A list of forms selects what one of them does |
| `Cron.Parse` | internal/cron/cron.go:64-94 | Accepted exactly if there are five well-formed fields; the schedule has their bits, with 7 as Sunday, which is what they mean unless a step is too large; otherwise the first malformed field is reported |
| `CronForms.AcceptsForms` | internal/cron/cron.go:64-94 | A text is accepted if and only if it is five fields, each a list of forms |
| `CronForms.ColumnsSplit` | internal/cron/cron.go:64-68 | The fields written with a space between are the fields of the text |
| `CronForms.TextMeans` | internal/cron/cron.go:64-94 | It means the schedule that its forms stand for, with 7 for Sunday, and no other |
| `CronForms.ParsedForms` | internal/cron/cron.go:64-94 | That is the schedule made of it, if no step is so large that additions wrap around to the range |
| `Cron.BuildsReads` | internal/cron/cron.go:64-94 | With no step too large, what is made of a text and what it means are the same |
| `Cron.BuildsValid` | internal/cron/cron.go:79-94 | Every accepted schedule selects something in each field and nothing out of range, and a star selects everything, if and only if no large step has set the bit of a day or month 0 |
| `Cron.ReadsValid` | internal/cron/cron.go:79-94 | A schedule whose text has no step too large is valid |
| `Cron.ParseRender` | internal/cron/cron.go:60-94 | Every valid schedule, written as lists of numbers, parses back to itself and nothing else |
| `YamlParser.Parse` | internal/yml/parser.go:56-94 | A file is accepted exactly if it stands for a tree, and with that tree |
| `YamlFiles.DocumentRead` | internal/yml/parser.go:56-94 | A document of the grammar, written out with its comments, blank lines, quotes and blocks, parses to the tree it stands for and nothing else, if and only if it is nested no deeper than the parser goes and no block or inline map has a key twice |
| `YamlRoundTrip.RoundTrip` | internal/yml/parser.go:56-94 | A tree of non-empty mappings and sequences, with plain keys, distinct in each mapping, and with arbitrary strings, lists of them and empty maps behind the keys, written out, parses back to itself and nothing else, if and only if it is nested no deeper than the parser goes |
| `YamlRoundTrip.EndingsSame` | internal/yml/parser.go:56-80 | A file means the same with newlines, carriage returns or both as its line ends, and with a byte order mark or none |
| `YamlRoundTrip.QuotedItem` | internal/yml/parser.go:143-159 | A list item that is a quoted string is read back exactly if nothing in it looks like the start of a block scalar behind its first colon and space |
| `YamlRoundTrip.QuotedItemRefused` | internal/yml/parser.go:143-159 | The item "a: &#124;b", in quotes, is refused |
| `YamlRoundTrip.BlocksSupported` | internal/yml/parser.go:119-136 | In a file that parses, the value of a key never starts with a folding indicator, and one that starts with a bar is a literal block with one of the three indicators |
| `YamlParser.ParseBlock` | internal/yml/parser.go:248-266 | A parse gets to the end of its block exactly if the block has a tree, and then with that tree |
| `YamlParser.ParseMapping` | internal/yml/parser.go:268-329 | The same for a block of keys |
| `YamlParser.ParseSequence` | internal/yml/parser.go:331-385 | The same for a block of items |
| `YamlParser.ItemLines` | internal/yml/parser.go:350-359 | An item's lines are its own without the marker and all the deeper ones below |
| `YamlPlaces.NoLineDropped` | internal/yml/parser.go:81-93 | When a file parses, the tree annotated with its lines, read in order, gives all significant lines back in file order, each at one place |
| `YamlPlaces.EmptyFile` | internal/yml/parser.go:256-258 | A file without significant lines stands for the empty scalar and nothing else |
| `YamlPlaces.Attribute` | internal/yml/parser.go:268-385 | The same for any block, with every line at the indentation and with the value of its place |
| `YamlLines.LinesAccounted` | internal/yml/parser.go:103-141 | Every line of the file that is neither blank nor a comment is kept, in order, or is in the literal block of one that is |
| `YamlLines.LinesSupported` | internal/yml/parser.go:119-136 | A kept line has a literal block exactly if it announces one, and then with a supported indicator |
| `YamlLines.SplitLines` | internal/yml/parser.go:103-141 | The significant lines, or the first line with a tab for indentation or an unsupported block scalar |
| `YamlLines.CollectLiteralBlock` | internal/yml/parser.go:167-213 | The body and the chomped text of a literal block |
| `YamlLines.Chomping` | internal/yml/parser.go:198-211 | Keep ends every line of the body with a newline; strip is that without the newlines at its end; clip is strip with one newline, unless nothing is left (section 8.1.1.2 of YAML 1.2.2) |
| `YamlLines.BlockFor` | internal/yml/parser.go:167-213 | Any non-empty text is what some body chomps to: kept if it ends with a newline, stripped if it does not |
| `YamlLines.NormaliseLineEndings` | internal/yml/parser.go:60-76 | Carriage returns, alone or before a newline, become newlines; other text is left alone |
| `YamlLines.BlockIndicator` | internal/yml/parser.go:147-159 | What stands where a block scalar would start, behind markers and a key |
| `YamlFiles.LiteralRead` | internal/yml/parser.go:167-213 | A literal block written below its key is collected back, with the text it stands for and up to its last line |
| `YamlFiles.RenderLines` | internal/yml/parser.go:103-141 | The significant lines of a document that is written out are exactly its rows |
| `YamlFiles.TailStripped` | internal/yml/parser.go:215-246 | A comment behind a value is cut off with the spaces before it |
| `YamlFiles.GapSkipped` | internal/yml/parser.go:103-141 | A blank line or a comment of its own is no significant line |
| `YamlDocs.RowsRead` | internal/yml/parser.go:248-385 | A document is read from its rows at any indentation and depth, exactly up to the depth limit and without repeated keys |
| `YamlDocs.InlineRead` | internal/yml/parser.go:407-426 | The value behind a key is read as the inline value it is |
| `YamlTree.ParseScalar` | internal/yml/parser.go:407-426 | The value of an inline list, inline map or plain scalar, or the error of the map |
| `YamlFlow.PlainRead` | internal/yml/parser.go:407-426 | Text without white space at its ends that is not in brackets, braces or quotes is the scalar of itself |
| `YamlFlow.SingleRead` | internal/yml/parser.go:510-521 | Single quotes stand for what is between them, without escapes |
| `YamlFlow.DoubleRead` | internal/yml/parser.go:510-521 | Any string comes back from its double-quoted form |
| `YamlFlow.EscapedRead` | internal/yml/parser.go:510-559 | Between double quotes a backslash makes n, t and r a newline, a tab and a carriage return, and a backslash or a quote itself; before any other character it stays |
| `YamlFlow.FlowRead` | internal/yml/parser.go:407-455 | An inline list or map of such values, nested to any depth, is read as what it stands for, if and only if it is nested no deeper than the parser goes and no map has a key twice |
| `YamlFlow.CutAtCommas` | internal/yml/parser.go:457-508 | A list of such values is cut at the commas between them and nowhere inside |
| `YamlTree.ParseInlineMap` | internal/yml/parser.go:431-455 | The entries of an inline map in order, or its first malformed or repeated key |
| `YamlText.UnquoteQuoted` | internal/yml/parser.go:510-521 | Any string comes back from its double-quoted form |
| `YamlText.UnescapeEscape` | internal/yml/parser.go:525-559 | Unescaping undoes escaping |
| `YamlText.UnescapeExact` | internal/yml/parser.go:525-559 | Every text is made of characters with a backslash before them or not, and unescaping gives what these stand for |
| `YamlText.CommentQuoted` | internal/yml/parser.go:215-246 | A quoted string never starts a comment, whatever it contains |
| `YamlText.StripInlineComment` | internal/yml/parser.go:215-246 | The scan with three flags is the quote automaton, and cuts at the first `#` behind a space outside quotes |
| `YamlText.SplitCsv` | internal/yml/parser.go:457-508 | The scan with its flags cuts at exactly the commas outside quotes and brackets |
| `YamlText.UnescapeDouble` | internal/yml/parser.go:525-559 | The fast path and the loop both decode every escape |
| `YamlText.FindColon` | internal/yml/parser.go:566-575 | The first colon that ends the text or precedes a space |
| `Splitter.FeedIsTheSplit` | internal/logger/writer.go:208-258 | The byte-at-a-time splitter finds the only cut of a stream into lines with one final newline, within the cap, and a leftover below it without a newline |
| `Splitter.ChunksIrrelevant` | internal/logger/writer.go:213-236 | How the stream is chunked makes no difference |
| `LineWriter.PrefixWriter.Write` | internal/logger/writer.go:213-314 | A write does what feeding its bytes one at a time would, to the destination and every target; the leftover stays below the cap and free of newlines; the ring holds the end of the history; every subscriber was offered exactly the lines added to the history, in order |
| `LineWriter.EmitLinesIs` | internal/logger/writer.go:259-287 | Putting out lines adds each, prefixed, to the destination and to every target, and cleaned to the history, in order |
| `LineWriter.WritesConcat` | internal/logger/writer.go:213-314 | A sequence of writes puts out what one write of all its bytes would |
| `LineWriter.PrefixWriter.Emit` | internal/logger/writer.go:259-309 | A line goes out with its prefix to the destination and every target, and cleaned into the ring and to every subscriber |
| `LineWriter.PrefixWriter.Send` | internal/logger/writer.go:263-266 | The prefixed line reaches the destination and every target |
| `LineWriter.PrefixWriter.Store` | internal/logger/writer.go:273-287 | The ring goes on holding the end of the history when a line is added |
| `LineWriter.PrefixWriter.FanOut` | internal/logger/writer.go:289-309 | Every subscriber is offered the line |
| `LineWriter.PrefixWriter.AddTarget` | internal/logger/writer.go:133-137 | One more target, to which nothing has gone yet; nothing else changes |
| `LineWriter.PrefixWriter.ClearTargets` | internal/logger/writer.go:142-146 | No targets; nothing else changes |
| `LineWriter.PrefixWriter.Subscribe` | internal/logger/writer.go:154-172 | One more subscription, with nothing sent to it; the others are left alone |
| `LineWriter.PrefixWriter.Recent` | internal/logger/writer.go:177-206 | The last 200 cleaned lines, or all if there are fewer, oldest first |
| `LineWriter.PrefixWriter.Flush` | internal/logger/writer.go:317-328 | The leftover goes out to the destination and every target, and not into the ring |
| `LineWriter.HistoryLine` | internal/logger/writer.go:268-272 | An entry of the history is one line, and its only control bytes are tab, its newline, and ESC at the start of a complete colour sequence |
| `Sanitizer.SanitizeSeq` | internal/logger/target.go:221-256 | The fast path and the scan give the same result, that of cleaning byte by byte |
| `Sanitizer.AnsiSeqLen` | internal/logger/target.go:262-307 | The extent of the escape sequence at the front, and whether it is a colour sequence |
| `Escapes.CleanExact` | internal/logger/target.go:206-307 | Every stream is made of text, control bytes and control sequences, complete or broken off; cleaning leaves exactly the text and, in the colour form, the complete sequences of ESC, bracket, digits, semicolons and colons and a final m |
| `Escapes.SeqIs` | internal/logger/target.go:262-307 | From its bytes: a control sequence up to its final byte, an operating system command up to BEL or its terminator, or a short sequence is taken whole, whatever follows |
| `Escapes.CutIs` | internal/logger/target.go:262-307 | A sequence that breaks off is taken as far as its own bytes go, up to the control byte or the end that cuts it |
| `Sanitizer.CleanTwice` | internal/logger/target.go:214-219 | The colour form is idempotent, and stripping after it is stripping at once |
| `Sanitizer.CleanHarmless` | internal/logger/target.go:206-219 | What is left holds no control byte but newline and tab and, in the colour form, ESC at the start of a complete colour sequence |
| `Sanitizer.CleanKeeps` | internal/logger/target.go:206-219 | Text that is harmless already is left alone |
| `Sanitizer.CleanLines` | internal/logger/target.go:258-261 | Lines are cleaned one by one: a newline inside a malformed sequence survives and cuts it |
| `Sanitizer.NewlinesKept` | internal/logger/target.go:206-261 | The number of newlines does not change |
| `Slots.NeverOverwritten` | internal/logger/writer.go:37-48 | In every run, at most 514 slots of a subscription are in use; they follow one another round the ring and end just before the next to be written, which is not one of them |
| `Slots.ReadsWhatWasSent` | internal/logger/writer.go:82-89 | The handler reads exactly the lines sent, in order: none torn, lost, repeated or swapped; a slot in use holds its line all along |
| `Slots.WriteKeeps` | internal/logger/writer.go:289-309 | Writing a line, sent or dropped, disturbs no slot in use |
| `Slots.PassingKeeps` | daemon.go:1080-1104 | Passing slots from the channel through a pipe to the merged channel and the handler keeps their order |
| `Slots.HandlerWriteKeeps` | control/server.go:437-446 | The handler releases the oldest slot, having read its line |
| `Slots.Subscription.Offer` | internal/logger/writer.go:289-309 | The fan-out to one subscriber is the write step of the transition system |
| `Follow.FollowerReads` | daemon.go:1060-1112 | In every run, what a follower has read of a log is a beginning of the lines that its history gained since the follower came, cleaned and in order, with only those missing for which its channel was full; the rest of them are on their way |
| `Follow.NothingMissing` | internal/logger/writer.go:289-309 | If its channel always had room, those lines are the history itself |

## Left out

- Boot: oneshots and layered starts (run.go:526-690) fork outside `startService`; the model begins with nothing running.
- Reading the configuration file: `Daemons.Daemon.Reload` is given its outcome. Log targets, checks and metrics, which a reload rebuilds too (daemon.go:717-721, 741-789), are not in the state.
- `Services.NewService` is given the functions that recognise signal names and durations; the log writers and the backoff it creates are not modelled.
- `reloadMu`: reloads are not serialised in the model, which allows more runs than the code.
- Service objects are numbers into a table of instances, and an exit channel is an instance with a start count; Go pointers and channels are not modelled as heap objects.
- Reads of the run state outside `d.mu` see the state between steps; the separate atomic writes inside `FinishStart` and `MarkExited` are not steps of their own.
- A pid is not issued again before the reap loop has handled its exit, and `Wait4` fails only with EINTR or ECHILD.
- Teardown's waits for the control server, the checks and the schedulers (run.go:495-503) are left out, which again allows more runs than the code.
- Liveness: that a shutdown finishes or a request is served is not claimed; only that a request can be is (`Progress.RequestCanBeServed`).
- SIGKILL escalation, process groups, exit codes, signal rewriting, backoff times, metrics and log output of the supervisor.
- `stopSequential` and `runRestart` release the lock in their loops; as loops they are step sequences of the transition system, and only the locked sections between are methods of the class.
- `Cron.Next` covers zones of fixed offset; daylight saving is not modelled.
- Masks are sets of bit positions and not 64-bit words; no position exceeds 59, and a shift by more leaves no bit.
- `YamlParser.Parse` works on Unicode text; bytes that are not valid UTF-8 are not modelled, nor are the texts of error messages.
- `YamlParser.ParseBlock`, `YamlParser.ParseMapping` and `YamlParser.ParseSequence` are stated for calls whose first line is deeper than `minIndent`, as all calls in the source are.
- `YamlRoundTrip.RoundTrip` leaves out strings as items of a block sequence that have both a colon before a space and a bar or an angle bracket; `YamlRoundTrip.QuotedItem` says exactly which of these the parser refuses.
- `YamlFiles.DocumentRead` writes nested blocks with two more spaces and items with their marker; other indentations are covered by `YamlParser.Parse` alone.
- Conversion of a parsed tree to the configuration, templates, dotenv and start conditions.
- `LineWriter.PrefixWriter.Write` has the branch for a full buffer only as an assertion that it cannot be reached; the reuse of backing arrays is left out, and receives that fall between the lines of one write are steps of Follow.dfy only.
- `LineWriter.PrefixWriter.Subscribe`: the function that ends a subscription is not modelled.
- `Slots.Subscription.Offer` copies into the slot in place, the worst case for sharing; a slot too small or too large gets a new array in the code.
- Log rotation, syslog, sockets, probes, credentials, cgroups and the command line: input, output and foreign calls.
