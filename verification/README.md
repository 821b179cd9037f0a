# Pigasus, modelled and proved

Pigasus is an FPGA-accelerated intrusion detection system. Its hardware is assembled by
Fluid, a small Python tool chain that compiles a Verilog-like embedded language (VTL) and
elaborates graphs of services into netlists. Its software is a Snort derivative: a main
thread supervises analyzer threads, a reader turns text scripts into packets, and a
decompressor unpacks file payloads piece by piece. Its tests use a vendored copy of Catch.

This project models the parts of that code with the most branching and state, each in
the form its code has, and proves what they are for:

- **VTL.** `VtlCompile` translates expressions, `VerilogText` prints them and parses the
  text back, `VtlVisit` is the statement visitor. Compiled, printed and re-parsed, every
  supported expression still means what its source means, for every binding of globals,
  every value of names and every interpretation of the operators left open. The operator
  defaults of the compiler get exact conditions.
- **The design graph.** `DesignGraph` is the application with its two kinds of
  connection, `Elaboration` its netlist, `Visualizer` and `HidePass` the contraction of
  hidden services, `PassManager` the dependency scheduler.
- **The supervisor.** `Supervisor` is the main thread and its analyzer threads as a step
  system in which a thread may move between any two steps of the main thread; `PokeRing`
  is the ring the threads report through, `PokeBound` how full it gets, and `StartStates`
  the states that commands assert.
- **Catch.** `SectionTracker` re-runs a test until every section path has been taken,
  `XmlEncode` writes text as XML, `TotalsDivider` sizes the closing bar.
- **Readers and packers.** `HextSpec`, `HextReader`, `HextRoundTrip` and `HextRun` are the
  hext reader, `FlitPacker` the flit packer, `SwfSession` the start of an SWF session.

Where a natural property turned out false of the code, the code is kept as it is, a
concrete input or run shows the failure, and the exact condition is proved:

- a comparison, arithmetic or unary operator keeps its meaning exactly when it is one of
  those the compiler names (the rest silently become `==`, `+` and `~`), and a chained
  comparison exactly when it has one link (`DefaultsTaken`);
- `h(w, n)` and `b(w, n)` print decimal digits, which a reader of that base takes for `n`
  exactly when `n` is a single digit of the base: below 10 for `h`, below 2 for `b`
  (`HexLiteralChanges`, `BinaryLiteralBreaks`);
- a subscript keeps its meaning in every world exactly when its owner is an unsubscripted
  field or a name that no global replaces: `a.f[1][2]` compiles to `a.f[2]`, and with
  `N = 4`, `N[0]` compiles to `N[0]` (`TwiceSubscripted`, `GlobalNotSubscripted`); a
  generate-for keeps its substitution exactly when its body has no generate-for
  (`NestedForLosesOuter`);
- the poke ring of size `n` holds `n - 2` values. It is large enough on every run exactly
  when no analyzer lifetime pokes more than twice more often than there are states; with
  one poke more, a run of pauses and resumes carried out while the main thread is away
  overflows it (`RingSufficesExactly`, for every number of threads);
- `start` and `run` find an analyzer in the states they assert on every run exactly when no
  change of privileges is waited for or there is one analyzer: the broadcast that ends the
  waiting also reaches analyzers started before (`AssertsHoldExactly`);
- rewiring a hidden service fails exactly when its bypasses are unconnected, undriven,
  share a port or feed the service itself, and a rewrite that succeeds drops paths exactly
  when one of its servers has several drivers; over several services, hiding fails exactly
  when a service feeds itself through services hidden before it (`FeedingItself`,
  `SharedServer`);
- a direct connection is faithful in the netlist exactly when its server is not also on
  the network (`DirectAndNetwork`);
- text survives XML encoding exactly when it consists of UTF-8 characters that are no
  control characters, encoded surrogates, and one overlong form (`ControlByteChanges`),
  and the output has the CDATA end mark exactly when the text starts with it: the guard
  asks for an index above 2 where 1 is meant (`MarkPassedOn`);
- the search for a file signature gives the answer its input calls for exactly when the
  input is not cut off inside a signature, and a resumed search finds what a fresh one
  finds exactly when the first signature does not match from the resumed character on only
  (`CutOffSignature`, `ResumedWrongly`).

`dafny verify dfyconfig.toml` checks the whole project.

## Model

| member | source | states |
|---|---|---|
| VtlCompile.NameKeepsMeaning | fluid/vtl.py:79-116 | a compiled name, global constants and the generate-for marker substituted, means what the source name means |
| VtlCompile.FoldMeaning | fluid/vtl.py:132-143 | the right-nested tree built from the reversed operand list is true exactly when the n-ary `and`/`or` is |
| VtlCompile.CompileKeepsMeaning | fluid/vtl.py:118-182 | every supported expression compiles, and evaluates to the source's value in every scope and world |
| VtlCompile.CompileAllKeepsMeaning | fluid/vtl.py:105-109 | the same for operand, argument and concatenation lists, element by element |
| VtlCompile.ComparisonsKeptExactly | fluid/vtl.py:121-131 | a comparison operator keeps its meaning if and only if it is `==`, `>`, `<` or `!=` |
| VtlCompile.ArithmeticKeptExactly | fluid/vtl.py:144-158 | a binary operator keeps its meaning if and only if it is one of the six the compiler names |
| VtlCompile.UnariesKeptExactly | fluid/vtl.py:159-165 | a unary operator keeps its meaning if and only if it is `~` or `not` |
| VtlCompile.ChainsKeptExactly | fluid/vtl.py:121-131 | a chained comparison agrees with its first link on all operands if and only if it has one link |
| VtlCompile.SubscriptsKeptExactly | fluid/vtl.py:91-102 | an index or slice with supported parts keeps its meaning in every world if and only if its owner is an unsubscripted field or a name whose text no global replaces |
| VtlCompile.SecondSubscriptReplacesFirst | fluid/vtl.py:91-102 | on any owner but a name, a second index or slice compiles to what it compiles to without the first |
| VtlCompile.TwiceSubscripted | fluid/vtl.py:91-102 | `a.f[1][2]` compiles to `a.f[2]` |
| VtlCompile.GlobalNotSubscripted | fluid/vtl.py:83-98 | with `N = 4`, `N` compiles to `4` and `N[0]` to `N[0]` |
| VtlCompile.DefaultsTaken | fluid/vtl.py:121-165 | four expressions whose operator or second link is replaced or dropped |
| VerilogText.ParsesBack | fluid/parse_ast.py:94-170 | parsing printed text followed by anything that stops an expression recovers the tree and leaves that rest |
| VerilogText.ModifierBack | fluid/parse_ast.py:119-146 | a printed index or slice parses back to itself |
| VerilogText.ListBack | fluid/parse_ast.py:197-205 | a printed list of items parses back to the items |
| VerilogText.ParseAfterPrint | fluid/parse_ast.py:314-342 | the parser recovers exactly the (canonical) tree from the printed text, with nothing left |
| VerilogText.PrintIsInjective | fluid/parse_ast.py:248-342 | trees that print alike are the same canonical tree |
| VerilogText.CanonKeepsMeaning | fluid/parse_ast.py:94-108 | a tree and its canonical form mean the same |
| VerilogText.CompiledIsPrintable | fluid/vtl.py:118-182 | everything the compiler produces from a supported expression can be printed and read back |
| VerilogText.TextKeepsMeaning | fluid/vtl.py:79-182 | end to end: compile, print, parse; the result means what the Python expression means |
| VerilogText.LiteralKeepsNumber | fluid/parse_ast.py:94-108 | the printed digits of a sized literal are read in its base as its number if and only if the literal is `d`, or `h` with a number below 10, or `b` with a number below 2 |
| VerilogText.HexLiteralChanges | fluid/parse_ast.py:94-108 | `h(8, 31)` prints `8'h31`, which is 49 |
| VerilogText.BinaryLiteralBreaks | fluid/parse_ast.py:94-108 | `b(4, 5)` prints `4'b5`, which no reader of binary digits accepts |
| Decimal.StrReadsBack | fluid/parse_ast.py:102-108 | the decimal text of any integer reads back as the integer |
| Decimal.RebasedValue | fluid/parse_ast.py:94-108 | decimal digits are accepted in a base and give the same number if and only if the base is ten or the number is a single digit below the base |
| VtlVisit.VtlCompiler.Visit | fluid/vtl.py:184-357 | visiting emits exactly the specified statements and leaves builder, state, assignment kind and parameter list as it found them, and fails exactly when the specification does |
| VtlVisit.VtlCompiler.VisitIf | fluid/vtl.py:301-318 | the same for `if` with and without `else` |
| VtlVisit.VtlCompiler.VisitAlwaysComb | fluid/vtl.py:187-196 | the same for combinational processes |
| VtlVisit.VtlCompiler.VisitModuleParams | fluid/vtl.py:197-205 | the same for module parameters, which replace the module's list |
| VtlVisit.VtlCompiler.VisitPorts | fluid/vtl.py:206-214 | the same for port lists, which grow the ports block |
| VtlVisit.VtlCompiler.VisitInstance | fluid/vtl.py:215-228 | the same for instances |
| VtlVisit.VtlCompiler.VisitAlwaysFF | fluid/vtl.py:235-247 | the same for clocked processes |
| VtlVisit.VtlCompiler.VisitForLoop | fluid/vtl.py:248-260 | the same for the `For` block, which keeps the assignment kind |
| VtlVisit.VtlCompiler.VisitFor | fluid/vtl.py:328-345 | the same for generate-for, one round per value of the range |
| VtlVisit.VtlCompiler.VisitAll | fluid/vtl.py:192-193 | the same for a list of statements |
| VtlVisit.EmitKinded | fluid/vtl.py:263-299 | every emitted assignment has the kind of its innermost enclosing process, at any depth |
| VtlVisit.EmitAllKinded | fluid/vtl.py:263-318 | the same for lists of statements |
| VtlVisit.EmitForKinded | fluid/vtl.py:328-345 | the same for every round of a generate-for |
| VtlVisit.EmitCount | fluid/vtl.py:263-318 | exactly the assignments a module statement asks for come out, at any depth |
| VtlVisit.EmitAllCount | fluid/vtl.py:263-318 | the same for lists of statements |
| VtlVisit.EmitForCount | fluid/vtl.py:328-345 | a generate-for yields its body's assignments once per value of the range |
| VtlVisit.LoopKeptExactly | fluid/vtl.py:328-345 | a body leaves the substitution as it was if and only if it holds no generate-for |
| VtlVisit.ForUnrolls | fluid/vtl.py:328-345 | a generate-for without another inside is its body repeated, each time compiled with its own value |
| VtlVisit.NestedForLosesOuter | fluid/vtl.py:328-345 | after an inner generate-for the outer marker is left in the names |
| DesignGraph.Application.Direct | fluid/header.py:225-235 | a direct connection updates map, lists, services and provider, and keeps the application valid |
| DesignGraph.Application.Noc | fluid/header.py:237-254 | a network connection does the same and renumbers clients and servers |
| DesignGraph.Numbered | fluid/header.py:249-254 | every listed element is numbered with its last position, all positions if there are no repetitions |
| Elaboration.NextPow2 | fluid/genericplatform.py:11-17 | the smallest power of two from 2 on that is large enough, and 0 for 0 |
| Elaboration.TopPass.Run | fluid/genericplatform.py:91-208 | elaboration of a freshly connected application ends in a finished netlist: what is declared how often and how wide, and how each port is wired |
| Elaboration.TopPass.DeclareNoc | fluid/genericplatform.py:91-113 | the network interfaces are declared exactly when there is a network |
| Elaboration.TopPass.SpareServers | fluid/genericplatform.py:117-127 | exactly the servers without a connection get an interface |
| Elaboration.TopPass.SpareClients | fluid/genericplatform.py:128-138 | exactly the clients without a provider get an interface and a number of their own |
| Elaboration.TopPass.DirectServers | fluid/genericplatform.py:140-150 | exactly the directly driven servers get an interface |
| Elaboration.TopPass.WireServer | fluid/genericplatform.py:163-184 | a server port is wired to its own, the network's or its adapter's interface |
| Elaboration.TopPass.WireClient | fluid/genericplatform.py:185-208 | a client port is wired to its server's, the network's, its adapter's or its unused interface |
| Elaboration.NamedDeclaredOnce | fluid/genericplatform.py:91-208 | every interface named by a port is declared exactly once |
| Elaboration.AdaptersDeclaredOnce | fluid/genericplatform.py:165-206 | both sides of every width adapter are declared exactly once |
| Elaboration.NetworkIndicesDistinct | fluid/genericplatform.py:177-206 | network indices are within the declared arrays, and no two ports reach the same one |
| Elaboration.NetworkReached | fluid/genericplatform.py:163-206 | a network port is wired to its network interface, or an adapter joins the two |
| Elaboration.SharesExactly | fluid/genericplatform.py:163-208 | a client port shares an interface with a server port if and only if the direct map joins them and the server is not on the network |
| Elaboration.DirectFaithfulExactly | fluid/genericplatform.py:163-187 | sharing is exactly the direct map for a client's connection if and only if its server is not on the network |
| Elaboration.DirectAndNetwork | fluid/genericplatform.py:163-187 | for a server with a direct and a network client, the server and its direct client end on different interfaces |
| Elaboration.UnusedNotShared | fluid/genericplatform.py:128-138 | the interface of an unconnected client is shared with no port |
| Elaboration.WidthsAgree | fluid/genericplatform.py:120-206 | every connected port's interface is declared with the widths of the server behind it |
| Visualizer.ContractKeepsLeads | fluid/visualizer.py:28-45 | contracting one bypass leaves unchanged where every visible client leads |
| Visualizer.HidingContractsPaths | fluid/visualizer.py:19-45 | hiding is path contraction: a visible client drives a visible server afterwards if and only if a chain of bypasses, of any length, led from one to the other |
| Visualizer.HidingRemovesBypasses | fluid/visualizer.py:28-45 | exactly the bypass clients lose their connection, one connection fewer per bypass, and nothing drives a hidden server |
| Visualizer.TogetherIsInTurn | fluid/visualizer.py:26-45 | deleting and joining a service's bypasses together is contracting them one by one |
| Visualizer.RewireExactly | fluid/visualizer.py:26-45 | with bypasses connected and single drivers, rewiring a service succeeds if and only if it does not feed itself, and is then the contraction |
| Visualizer.RewireAllExactly | fluid/visualizer.py:19-45 | rewiring services in turn succeeds if and only if none feeds itself in its turn, and contracts all bypasses |
| Visualizer.ApartExactly | fluid/visualizer.py:19-45 | that condition can be read off the original connections: no chain through earlier services leads from a service to itself |
| Visualizer.RewiresExactly | fluid/visualizer.py:26-43 | for any bypasses and drivers, rewiring a service succeeds if and only if its bypasses are connected and apart, it does not feed itself and each hidden server is driven |
| Visualizer.PathsKeptExactly | fluid/visualizer.py:28-43 | a rewrite that succeeds keeps all visible paths if and only if every hidden server has a single driver |
| Visualizer.OtherDriverDropped | fluid/visualizer.py:31-43 | every driver but the last of a hidden server is left unconnected |
| Visualizer.FeedingItself | fluid/visualizer.py:28-40 | a service whose client drives its own hidden server cannot be rewired |
| Visualizer.SharedServer | fluid/visualizer.py:31-43 | of two drivers of a hidden server the first loses its path |
| HidePass.FindDrivers | fluid/visualizer.py:31-35 | the search finds all drivers in dictionary order, and the last of them |
| HidePass.Collect | fluid/visualizer.py:26-38 | what is to be deleted and joined is collected, or the missing connection noticed |
| HidePass.DeleteDoomed | fluid/visualizer.py:39-40 | the connections are deleted in order; a missing one is an error |
| HidePass.MakeJoins | fluid/visualizer.py:41-45 | the joins are made in order, within the services there are; a missing driver is an error |
| HidePass.HideService | fluid/visualizer.py:20-45 | one service is rewired as specified, and contracted when it can be |
| HidePass.HideServices | fluid/visualizer.py:17-48 | the whole rewrite: with connected bypasses and single drivers it succeeds if and only if no service feeds itself through earlier ones, and then contracts every hidden chain and drops the hidden services |
| PassManager.RoundKeeps | fluid/header.py:305-314 | a round runs each pass at most once and only after its dependencies |
| PassManager.Runnable | fluid/header.py:305-311 | a non-empty remainder of passes with acyclic registered dependencies has a runnable pass |
| PassManager.RoundShrinks | fluid/header.py:304-316 | so every round finishes at least one pass |
| PassManager.EndsExactlyWhenRanked | fluid/header.py:301-316 | the scheduler ends if and only if dependencies are registered and acyclic |
| PassManager.PassManager.RunRound | fluid/header.py:305-314 | the loop of a round runs what the specification says |
| PassManager.PassManager.ScheduleAndRunPasses | fluid/header.py:301-316 | every registered pass runs exactly once, after all its dependencies, and none is left |
| PassManager.PassManager.AddPass | fluid/header.py:286-291 | a pass is registered with its dependencies, once |
| PassManager.PassManager.AddBeforePass | fluid/header.py:318-325 | a pass is registered and made a dependency of another, which must exist |
| PassManager.AddBeforeKeepsRanks | fluid/header.py:318-325 | inserting a pass whose dependencies come before the target keeps the dependencies acyclic |
| PokeRing.Ring.constructor | pigasus/software/src/helpers/ring_logic.h:52-57 | a new ring is empty |
| PokeRing.Ring.Get | pigasus/software/src/helpers/ring_logic.h:59-87 | values come out in the order they went in, the default when there is none |
| PokeRing.Ring.Put | pigasus/software/src/helpers/ring_logic.h:65-78 | a value goes in if and only if fewer than size minus two wait |
| PokeRing.Ring.NeverFull | pigasus/software/src/helpers/ring_logic.h:89-100 | the test for a full ring never succeeds |
| Supervisor.StepOk | pigasus/software/src/main.cc:845-891 | every step of the main thread or of an analyzer thread keeps the invariant: reference counts equal queue slots or the command is an orphan, `swine` counts the analyzers, threads only where analyzers are, no assertion fails |
| Supervisor.ThreadStepOk | pigasus/software/src/main/analyzer.cc:51-222 | so do the steps of analyzer threads: state changes, pokes, taking and finishing commands, returning |
| Supervisor.StartOk | pigasus/software/src/main.cc:155-163 | so does starting a thread |
| Supervisor.PreppedOk | pigasus/software/src/main.cc:150-153 | so does preparing an analyzer |
| Supervisor.StoppingStepOk | pigasus/software/src/main.cc:165-191 | so does each step of stopping a pig, reaping its queues |
| Supervisor.StoppedOk | pigasus/software/src/main.cc:165-191 | the last of them, with `swine` still positive |
| Supervisor.ReapedOk | pigasus/software/src/main.cc:213-227 | reaping a command lowers its count and destroys it exactly when no slot holds it any more |
| Supervisor.ReapingStepOk | pigasus/software/src/main.cc:229-248 | so does reaping completed commands |
| Supervisor.QueueNewOk | pigasus/software/src/main.cc:193-211 | so does queueing a new command, which is an orphan if the pig takes it not |
| Supervisor.BroadcastStepOk | pigasus/software/src/main.cc:279-294 | so does each step of a broadcast |
| Supervisor.BroadcastEndOk | pigasus/software/src/main.cc:279-294 | a command no pig took becomes an orphan exactly once |
| Supervisor.DroppingStepOk | pigasus/software/src/main.cc:646-658 | so does dropping orphans |
| Supervisor.GateOk | pigasus/software/src/main.cc:777-843 | so does the privilege gate, whichever way it decides |
| Supervisor.RunIsSafe | pigasus/software/src/main.cc:165-294 | the invariant holds in every state of every run; hence no command is destroyed twice or while queued |
| Supervisor.LazyPigFinds | pigasus/software/src/main.cc:253-261 | the search for an idle pig never reaches its failing assertion |
| Supervisor.ExitedClean | pigasus/software/src/main.cc:862-891 | when the main loop is left every thread has been joined and only orphans are left of the commands |
| PokeBound.StepPokes | pigasus/software/src/main.cc:104-114 | every step keeps the account of pokes asked for, read and waiting, and how far an analyzer can be for what has been read of it |
| PokeBound.RoomForPoke | pigasus/software/src/main.cc:902-905 | within the bound there is room in the ring |
| PokeBound.GatePokes | pigasus/software/src/main.cc:785-833 | so does answering a poke: a start is sent for the second, a run for the third, or either is broadcast once |
| PokeBound.RingSuffices | pigasus/software/src/main.cc:902-905 | with at most two pokes more per lifetime than there are states no poke is lost on any run |
| PokeBound.RingSufficesExactly | pigasus/software/src/main.cc:902-905 | for every number of analyzers, no poke is lost on any run if and only if no lifetime pokes more than twice more often than there are states |
| PokeBound.CarryOut | pigasus/software/src/main/analyzer.cc:191-222 | a run, pause or resume in its turn is carried out, and its poke goes in or is lost |
| StartStates.StepApart | pigasus/software/src/main.cc:785-833 | without a wait for privileges, or with one analyzer, every step keeps that an analyzer is sent one start, after its second poke was read, and one run, after its third |
| StartStates.AssertsHoldExactly | pigasus/software/src/main/analyzer.cc:179-193 | the assertions of `start` and `run` hold on every run if and only if no change of privileges is waited for or there is one analyzer |
| SectionTracker.FindsInOrder | pigasus/software/src/catch/catch.hpp:10381-10390 | a section is found at its place among the siblings known |
| SectionTracker.RestIsSkipped | pigasus/software/src/catch/catch.hpp:10485-10493 | once a section has run in a cycle the later siblings are only registered |
| SectionTracker.CycleAdvances | pigasus/software/src/catch/catch.hpp:8858-8896 | a run of a body takes exactly the next leaf, and the trackers represent one more run |
| SectionTracker.SectionAdvances | pigasus/software/src/catch/catch.hpp:8858-8905 | the same for a section among its siblings, also when it throws |
| SectionTracker.NodeAdvances | pigasus/software/src/catch/catch.hpp:10410-10437 | the same for a tracker that is opened, run and closed |
| SectionTracker.AllDone | pigasus/software/src/catch/catch.hpp:10364-10368 | when all runs are done another run enters nothing |
| SectionTracker.LastComplete | pigasus/software/src/catch/catch.hpp:10410-10437 | the last known child is complete exactly when nothing remains or siblings are still unknown |
| SectionTracker.ChildrenInOrder | pigasus/software/src/catch/catch.hpp:10364-10493 | under every tracker the children are complete, then at most one in progress, then not started |
| SectionTracker.QuietRuns | pigasus/software/src/catch/catch.hpp:8797-8801 | without exceptions the number of cycles is the number of leaves |
| SectionTracker.TrackerContext.StartRun | pigasus/software/src/catch/catch.hpp:10317-10322 | a run starts with a fresh root |
| SectionTracker.TrackerContext.StartCycle | pigasus/software/src/catch/catch.hpp:10330-10333 | a cycle starts at the root |
| SectionTracker.TrackerContext.Acquire | pigasus/software/src/catch/catch.hpp:10472-10493 | the child is found or added, and opened unless it is complete or the cycle is |
| SectionTracker.TrackerContext.OpenChild | pigasus/software/src/catch/catch.hpp:10392-10398 | a tracker and those above it come to execute children |
| SectionTracker.TrackerContext.Close | pigasus/software/src/catch/catch.hpp:10410-10437 | the tracker is closed as specified and its parent becomes current |
| SectionTracker.TrackerContext.Fail | pigasus/software/src/catch/catch.hpp:10439-10445 | the tracker fails and its parent needs another run |
| SectionTracker.TrackerContext.RunSection | pigasus/software/src/catch/catch.hpp:8858-8896 | entering, running and leaving a section is the specified visit |
| SectionTracker.TrackerContext.EndSection | pigasus/software/src/catch/catch.hpp:8885-8905 | a section that ends, early or not, is closed or failed as specified |
| SectionTracker.TrackerContext.RunCurrentTest | pigasus/software/src/catch/catch.hpp:8988-9039 | one cycle runs the next leaf and advances the trackers by one |
| SectionTracker.TrackerContext.RunTest | pigasus/software/src/catch/catch.hpp:8794-8801 | the loop ends after exactly the expected number of cycles, having run every leaf section once, left to right |
| XmlEncode.CheckSequence | pigasus/software/src/catch/catch.hpp:11278-11295 | the loop accepts exactly the sequences the specification accepts |
| XmlEncode.EncodeNext | pigasus/software/src/catch/catch.hpp:11221-11306 | one step writes the specified piece and skips the bytes it stands for |
| XmlEncode.EncodeTo | pigasus/software/src/catch/catch.hpp:11216-11308 | the loop writes the specified encoding |
| XmlEncode.RoundTripExactly | pigasus/software/src/catch/catch.hpp:11216-11308 | text survives encoding and entity decoding if and only if it is a sequence of non-control UTF-8 characters, encoded surrogates and the one long form, told by their bytes alone |
| XmlEncode.PassingToken | pigasus/software/src/catch/catch.hpp:11241-11298 | the encoder takes a character of a given length in one step, unescaped, if and only if it is one of those |
| XmlEncode.ControlByteChanges | pigasus/software/src/catch/catch.hpp:11244-11249 | the byte 1 comes back as the four characters of its escape |
| XmlEncode.Utf8Survives | pigasus/software/src/catch/catch.hpp:11246-11305 | text that is UTF-8 by section 4 of RFC 3629 and has no control bytes survives |
| XmlEncode.AcceptedExactly | pigasus/software/src/catch/catch.hpp:11263-11298 | the multi-byte sequences passed on are exactly those of UTF-8, the surrogates, and 0x800 in four bytes |
| XmlEncode.OutputClean | pigasus/software/src/catch/catch.hpp:11222-11249 | the output has no raw `<`, every `&` starts one of the four entities, no quote is left in an attribute, and no control byte but white space |
| XmlEncode.MarkExactly | pigasus/software/src/catch/catch.hpp:11226-11232 | the output has the CDATA end mark if and only if the text starts with it |
| XmlEncode.MarkPassedOn | pigasus/software/src/catch/catch.hpp:11226-11232 | the mark itself is written as it stands |
| TotalsDivider.FindMax | pigasus/software/src/catch/catch.hpp:11931-11938 | the width chosen is the largest |
| TotalsDivider.Widths | pigasus/software/src/catch/catch.hpp:12355-12363 | both loops end; the widths fill the line but for one column, positive exactly where the count is |
| HextReader.Reader.Unescape | pigasus/software/daqs/daq_hext.c:350-367 | a backslash arms the automaton, the next character is translated and disarms it |
| HextReader.Reader.ParseString | pigasus/software/daqs/daq_hext.c:403-412 | the buffer gains the decoded string, as far as it fits |
| HextReader.Reader.ParseHex | pigasus/software/daqs/daq_hext.c:415-425 | the buffer gains the decoded numbers, as far as they fit |
| HextReader.Reader.ParseFlow | pigasus/software/daqs/daq_hext.c:280-329 | fields are filled word by word; the record is complete after the last |
| HextReader.Reader.ParseCommand | pigasus/software/daqs/daq_hext.c:378-400 | a command has the specified effect on endpoints or flow record |
| HextReader.Reader.Parse | pigasus/software/daqs/daq_hext.c:427-460 | a line flushes, runs or adds data as specified; a command behind a packet is held back |
| HextReader.Reader.Read | pigasus/software/daqs/daq_hext.c:496-532 | up to the next packet, record or end; events so far, made ready and to come stay the same |
| HextReader.Reader.Process | pigasus/software/daqs/daq_hext.c:595-619 | events so far and to come stay the same; the end of the file is reported only when nothing is to come |
| HextReader.Reader.Acquire | pigasus/software/daqs/daq_hext.c:719-742 | the same over any number of packets, however the loop is left; a call that does not report the end has done some of the work left |
| HextRun.ReadAll | pigasus/software/src/main/analyzer.cc:146-177 | a fresh reader from which packets are acquired until it reports the end has delivered exactly the events of its file, and this ends |
| HextRun.ReadScript | pigasus/software/src/main/analyzer.cc:146-177 | hence for a script of proper lines, exactly its groups as packets, each command once and in order, and the headers as they should be |
| HextSpec.ScriptMeansGroups | pigasus/software/daqs/daq_hext.c:331-460 | the packets of well-formed lines are the decoded data lines grouped by blank lines, commands and the end, empty groups dropped, each cut at the snap length; every command runs exactly once, in order |
| HextSpec.CommandInItsPlace | pigasus/software/daqs/daq_hext.c:443-448 | when a command runs, exactly the groups and commands before it have gone out |
| HextSpec.ScriptHeaders | pigasus/software/daqs/daq_hext.c:561-593 | every packet goes out under the endpoints the commands before it set; only the first carries the start flag and only the end mark the end flag |
| HextSpec.NamedEnds | pigasus/software/daqs/daq_hext.c:80-94 | whatever other commands stand between, packets go between the client and server named last, to the server with the configured direction flag, to the client the other way round with the flag cleared |
| HextSpec.ConfiguredKept | pigasus/software/daqs/daq_hext.c:80-132 | no sequence of commands changes the configured direction, nor the client or the server unless it names one |
| HextSpec.PacketEnds | pigasus/software/daqs/daq_hext.c:116-132 | a packet's own endpoints stand before and after the arrow, and the ports decide the direction |
| HextRoundTrip.FileBack | pigasus/software/daqs/daq_hext.c:500-500 | a file of proper lines is read as those lines |
| HextRoundTrip.QuotedLineBack | pigasus/software/daqs/daq_hext.c:338-412 | bytes without quote or NUL, written with escapes, are restored, and the automaton is left clear |
| HextRoundTrip.HexLineBack | pigasus/software/daqs/daq_hext.c:414-425 | bytes written as hex numbers are restored |
| HextRoundTrip.FlowBack | pigasus/software/daqs/daq_hext.c:296-328 | a flow record is complete if and only if no field is missing |
| HextRoundTrip.LongWordStops | pigasus/software/daqs/daq_hext.c:302-303 | a word of 45 characters or more ends the record unfinished |
| HextRoundTrip.FilledAt | pigasus/software/daqs/daq_hext.c:305-313 | every field of a record is its word |
| FlitPacker.ParseLine | pigasus/hardware/rtl_sim/input_gen/parse_output.py:7-18 | a line's digits, filled up to 16 bytes, with the bytes filled |
| FlitPacker.Pack | pigasus/hardware/rtl_sim/input_gen/parse_output.py:38-78 | the slot index stays in range; the flits of a proper dump decode to exactly its packets and are well framed |
| FlitPacker.WriteFull | pigasus/hardware/rtl_sim/input_gen/parse_output.py:48-56 | a full flit continues the open packet |
| FlitPacker.WriteLast | pigasus/hardware/rtl_sim/input_gen/parse_output.py:57-70 | a last flit, filled up to 64 bytes, closes the packet |
| FlitPacker.PrintBack | pigasus/hardware/rtl_sim/input_gen/parse_output.py:67-67 | a printed flit reads back as the flit |
| SwfSession.Session.PutN | pigasus/software/src/decompress/file_decomp.h:219-231 | all bytes go out and are counted, or none |
| SwfSession.Session.Move1 | pigasus/software/src/decompress/file_decomp.h:235-251 | one byte moves from input to output and is counted on both sides, or nothing changes |
| SwfSession.Session.FindSig | pigasus/software/src/decompress/file_decomp.cc:119-179 | the search, fresh or resumed, on any input and any byte that follows it in memory, comes to what the comparison of signatures in turn says |
| SwfSession.ScanIs | pigasus/software/src/decompress/file_decomp.cc:119-179 | what that is: the first signature the input agrees with as far as it goes, completed within the input, by the byte after it, or not yet |
| SwfSession.FoundExactly | pigasus/software/src/decompress/file_decomp.cc:119-179 | a fresh search gives the answer its input calls for, whatever byte follows, if and only if the input is not cut off inside a signature |
| SwfSession.ResumedExactly | pigasus/software/src/decompress/file_decomp.cc:94-107 | a resumed search finds what a fresh one finds if and only if the first signature does not match from the resumed character on only |
| SwfSession.CutOffSignature | pigasus/software/src/decompress/file_decomp.cc:154-178 | `CW` is given up unless the byte that happens to follow is `S`, which is then counted as input |
| SwfSession.ResumedWrongly | pigasus/software/src/decompress/file_decomp.cc:94-107 | after `C`, `CPDF-` can be taken for a PDF |
| SwfSession.Session.LocateSig | pigasus/software/src/decompress/file_decomp.cc:79-180 | the signature decides the file type and is replaced in the output; one that is cut off is noted for the next call; otherwise nothing changes |
| SwfSession.Session.Initialize | pigasus/software/src/decompress/file_decomp_swf.cc:196-267 | a found type starts a session with an empty header of the right length |
| SwfSession.Session.GetHeaderBytes | pigasus/software/src/decompress/file_decomp_swf.cc:279-300 | exactly as many header bytes pass as input, room and header allow, and the right side is reported blocked |
| SwfSession.Session.LzmaHeader | pigasus/software/src/decompress/file_decomp_swf.cc:43-92 | a header announcing less than a header is an error before the engine is entered |
| SwfSession.Session.DecompSwf | pigasus/software/src/decompress/file_decomp_swf.cc:269-330 | a call continues where the last stopped, with all bytes accounted for |
| SwfSession.Session.FileDecomp | pigasus/software/src/decompress/file_decomp.cc:291-323 | whatever the pieces, the engine first sees `FWS` and exactly the header bytes of the stream, and available and total counts move together, unless a signature ran over the end of the input |
| SwfSession.StartIsIndependentOfPieces | pigasus/software/src/decompress/file_decomp_swf.cc:269-300 | two sessions whose streams begin alike have their engines first see the same |

## Left out

- Supervisor: a step system on values; update in place and aliasing of pigs and commands are not modelled, and a slot's index stands for its address.
- Supervisor: a failed assertion of `start` or `run` stops the analyzer; what a build without assertions does then is not modelled.
- Supervisor: the value of `paused` that a run command carries is left open, so a run may start paused or running.
- Supervisor: time, signals, the shell and the contents of commands; loading of configurations and swapping.
- VtlCompile.CompileKeepsMeaning: Verilog widths, signedness and unknown bits are not modelled; values are integers and the operators a world interprets are left open.
- VtlVisit: module boundaries, types of ports beyond their text, and the lists of subnodes and parents used for debugging output.
- VerilogText.ParseAfterPrint: two trees that differ only in a form the text cannot show, such as a constant and a name spelt with the same digits, print alike; they are compared up to that.
- Elaboration: interface names are keys assumed distinct; control signals, externs, memory interfaces and the printing of the netlist.
- Elaboration.TopPass.Run: elaborating the same application twice, where the numbers of unused clients would be taken for declared ones.
- Visualizer: drawing; only the rewrite before it is modelled, and not the line style a join is drawn with.
- PassManager.PassManager.ScheduleAndRunPasses: a scheduler without a rank never returns and is ruled out by the precondition; PassManager.EndsExactlyWhenRanked says that this is exactly when it does not end.
- SectionTracker: section filters, generators, aborting after failures, and reporters; sections throw only from their own end, not between their children.
- TotalsDivider.Widths: the case without test cases, which prints a full line, and counts whose sum does not fit 64 bits.
- HextReader.Reader.Process: without a callback for flow records a complete record stays pending, and what later calls do then is not modelled.
- HextReader: addresses and ports are read by a library function that is left open; opening and closing files, statistics and verdicts.
- FlitPacker.Pack: the flits of a dump that is not proper, such as one that ends on a data line, whose last packet is lost, are not specified.
- SwfSession.Session.FileDecomp: nothing is promised once a signature ran over the end of the input, where the code goes on with bytes it was not given; the session then counts as failed.
- SwfSession: what the engines compute; the PDF decompressor; moving several bytes at once, which the header does not use.
- The packet pipeline, the detection engine, the codecs and the rest of Catch.
