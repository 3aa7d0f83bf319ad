# A verified model of CBTF

CBTF overlays component dataflow networks on a tree of MRNet processes. A frontend
reads a network's description, names its streams, and sends the description down the
tree; every filter process decides from its position which filter network it takes;
the backends are configured at the end. From then on component networks exchange
packets through the tree, and a wait-for-all filter may hold them back until all
children have sent one.

The project models the parts that carry state or branch, and proves what they promise
over all inputs, all runs and all trees. `dafny verify dfyconfig.toml` checks
everything.

| file | contents |
|---|---|
| `WaveFilter`, `WaveRuns` | the wait-for-all filter, and its laws over whole runs |
| `DepthGrammar`, `DepthPrinter`, `DepthRoundTrip`, `DepthScoping`, `DepthAlternatives` | the depth expression language: the backtracking grammar with its shared variables, a printer, the round trip, stale values, and what the sequential or changes |
| `DepthSelection`, `DepthMeaning` | which filter specification a node takes, and what each operator and keyword says of a node |
| `PathSelector`, `PathMeaning`, `XPathAgreement` | the worklist search over a document, what it selects, and where that is XPath's answer |
| `StreamTags` | stream names and tags, and the packet that carries them |
| `FilterNode`, `FilterRuns`, `HandlerRows`, `Isolation` | one filter process: configuration, dispatch, packet queues; its invariants; the handlers of each network; overlaid networks kept apart |
| `Backend`, `Frontend`, `Scripts`, `TreeProtocol` | both ends of the tree, the order in which configuration is sent, and its way down a tree of any shape |
| `Upstream`, `ValueOrder`, `Roles` | values on their way up through the selected filters, and how the configuration makes a filter play its role |
| `ComponentGraph`, `ComponentHistory`, `ComponentRuns` | components, typed ports, connections, emission; the same said by the history of calls; component objects driven by any sequence of calls |
| `Flattening`, `Deliveries` | networks inside networks flattened, and what a delivery calls |
| `NetworkLoader`, `LoadConditions`, `VersionChoice` | how a description builds a network, which descriptions load, and which version of a component is taken |
| `LeafAssignment` | spreading backends over leaves |
| `Shutdown` | the frontend's wait for acknowledgements |
| `Ranks`, `Wrappers` | finite sets of numbers in ascending order; `Option` |

How the model is built:

- Code that updates objects is a class whose methods do the same updates; each method's
  contract ties its new state to a function on values, and the theorems are about runs of
  those functions. Loops keep the shape of the original loops.
- MRNet is the environment. Every filter call is given an arbitrary batch, an arbitrary
  set of failed ranks and of child ranks; a parent and a child are joined by a queue that
  keeps order. Component networks are arbitrary functions (`FilterNode.World`,
  `Flattening.Kind`).
- Theorems over runs quantify over all sequences of calls or events, in any interleaving.

## Where the code and its documentation differ

The model follows the code, and says how far the documented behaviour holds.

- The frontend documents that `AllOther` specifications are sent last
  (`libcbtf-mrnet/MRNet.cpp:275-289`). The flag that should tell them apart is bound by
  value (`libcbtf-mrnet/MRNet.cpp:338-341`), so the first pass sends every specification
  in document order and the second none (`Frontend.MRNetComponent.SendFilters`).
  `DepthSelection.DocumentOrderExact` says for which documents and nodes this makes no
  difference, `DepthSelection.AllOtherFirstOvertakes` gives one where it does, and
  `DepthSelection.AllOtherCoversTheRest` proves the documented result for the documented order.
- The integer rule joins its last two alternatives by a sequential or
  (`libcbtf-mrnet-filter/ParseDepth.cpp:215`), so a number followed by `max(x,y)` is one
  integer with the value of the maximum (`DepthScoping.MaxAfterNumber`), and whole
  expressions with it are accepted (`DepthAlternatives.MaxAfterNumberAccepted`).
  `DepthAlternatives.SequentialOrExact` compares the rule with one that has a plain
  alternative, for every text: they give the same verdict if no `max(` directly follows
  an operand, and otherwise the plain alternative does not match the text. Abandoned
  alternatives do overwrite the rule's variable (`DepthScoping.StaleValueInside`), yet no
  result of a whole expression depends on it (`DepthScoping.NoStaleValue`).
- Paths are meant to be a basic subset of XPath (`libcbtf-xml/XercesExts.hpp:68-90`). The
  reference is XPath 1.0, on the part of its abbreviated syntax (section 2.5) that the
  search reads, for documents without namespaces. What a search that does not raise
  selects from a node, XPath selects too (`XPathAgreement.AgreesWithXPath`). They part
  in four places.
  - The inner queue of a `//` step is never refilled (`libcbtf-xml/XercesExts.cpp:255-272`),
    so the step reaches a node and its element children instead of all nodes below.
    `XPathAgreement.DescendExact`: that is the same exactly if every child is an element
    without children. For whole paths it is enough that no element is missed where a name,
    `*` or `@` follows; `XPathAgreement.TextIsMissed` shows why it is not before `..`.
  - `@*` looks for an attribute of that name (`libcbtf-xml/XercesExts.cpp:304-325`), so it
    selects nothing; XPath selects all attributes.
  - `..` at a node without parent raises (`libcbtf-xml/XercesExts.cpp:286-297`); in XPath
    it selects nothing at the document, and at an attribute the element that carries it.
  - Called on any node but the document, an absolute path starts at the document element
    (`libcbtf-xml/XercesExts.cpp:224-235`), so `/p` is read as `/*/p`
    (`XPathAgreement.AbsoluteIsOneDeeper`). `XPathAgreement.AbsoluteNameExact` says when
    this makes no difference for a path of one name, and `XPathAgreement.RootNameMissed`
    is an input where it does.
- The wave test compares sizes, not sets (`libcbtf-mrnet-filter/main.cpp:773`).
  `WaveRuns.SizeTestDecides` says for every state and call when it is right: every child
  is ready, or the ready ranks that are no children are fewer than the children that are
  not ready. When all senders are current children it always is
  (`WaveRuns.SizeTestExact`); `WaveRuns.StrayRankCompletesWave` is a run without failures
  in which it is not.
- A description may state a maximum version alone (`libcbtf-xml/Network.xsd:40-46`), but
  the code reads the minimum first and gives up when it is missing
  (`libcbtf-xml/Network.cpp:199-212`). `VersionChoice.BoundsKeptExact` says when the
  stated bounds are kept, `VersionChoice.MaximumAloneIsIgnored` shows that they need not be.
- Wires that bypass mediators can lead to the same input twice, which `connect` refuses
  (`libcbtf/ComponentImpl.cpp:270-283`) but mediators allow. The flat graph therefore keeps
  wires as a list, and `ComponentGraph.ConnectAllExact` says which lists `connect` can lay.

## Model

| member | source | states |
|---|---|---|
| WaveFilter.WaitForAll.Filter | libcbtf-mrnet-filter/main.cpp:643-816 | one call takes the buffer and yields the wave that the wave machine does, for every batch, failure set and child set, and keeps the ready set equal to the ranks with waiting packets |
| WaveFilter.WaitForAll.DiscardFailed | libcbtf-mrnet-filter/main.cpp:692-717 | exactly the failed ranks lose their slots, everything else stays, and the ready set follows |
| WaveFilter.WaitForAll.PlacePackets | libcbtf-mrnet-filter/main.cpp:720-760 | every packet of a live rank joins the end of its rank's queue in arrival order |
| WaveFilter.WaitForAll.PopWave | libcbtf-mrnet-filter/main.cpp:786-816 | the oldest packet of every ready rank leaves, in ascending order of rank, and nothing else |
| WaveFilter.PopEachAt | libcbtf-mrnet-filter/main.cpp:787-816 | a wave takes exactly the head of each listed queue and leaves every other queue as it was |
| WaveRuns.Conservation | libcbtf-mrnet-filter/main.cpp:692-816 | whatever fails around it, the packets emitted for a rank that never fails, followed by those buffered, are those it delivered, in order |
| WaveRuns.UnknownPassesThrough | libcbtf-mrnet-filter/main.cpp:718-740 | packets of the unknown rank that come alone leave at once, all and in order, over any run |
| WaveRuns.FailedLeavesNothing | libcbtf-mrnet-filter/main.cpp:670-760 | nothing of a failed rank is kept, taken in or sent on; where the stream is missing nothing changes |
| WaveRuns.SizeTestDecides | libcbtf-mrnet-filter/main.cpp:762-779 | for every state and call, a wave leaves exactly if the ready ranks that are no children are at least as many as the children not ready; the test is right exactly if every child is ready or those are fewer |
| WaveRuns.SizeTestExact | libcbtf-mrnet-filter/main.cpp:703-815 | if senders are current children that have not failed, the size test holds exactly when every child has a packet, and the wave is one packet per child in ascending order |
| WaveRuns.StrayRankCompletesWave | libcbtf-mrnet-filter/main.cpp:762-779 | a run of two calls without failures in which a rank that left the stream completes a wave although a child has sent nothing |
| WaveRuns.Transposition | libcbtf-mrnet-filter/main.cpp:720-816 | over any failure-free run the k-th wave is the k-th packet of every child, and all children have equal emitted counts |
| WaveRuns.WaveLaw | libcbtf-mrnet-filter/main.cpp:772-816 | a call releases a wave exactly when every child has delivered more packets than there have been waves |
| WaveRuns.NoWaveWaits | libcbtf-mrnet-filter/main.cpp:720-816 | if no call brings two packets of a rank, some child's queue is empty after every call |
| WaveRuns.Serve | libcbtf-mrnet-filter/main.cpp:643-816 | a filter object driven by any sequence of calls emits what the run of the wave machine emits |
| DepthGrammar.Integer | libcbtf-mrnet-filter/ParseDepth.cpp:193-220 | a match of the integer rule consumes text, a failure leaves the text as it was |
| DepthGrammar.LogicalOr | libcbtf-mrnet-filter/ParseDepth.cpp:136-138 | a match of the outermost rule consumes text, a failure leaves the text as it was |
| DepthRoundTrip.PrintedParses | libcbtf-mrnet-filter/ParseDepth.cpp:132-244 | every expression, printed with the fewest parentheses the same blanks before every token and keywords in any capital and small letters, is matched to the end and yields its direct value; a division by zero is executed exactly if the expression contains one |
| DepthRoundTrip.AdditiveReads | libcbtf-mrnet-filter/ParseDepth.cpp:184-186 | the additive rule reads a printed sum as its left-associative value and stops where the expression ends |
| DepthRoundTrip.MultiplicativeReads | libcbtf-mrnet-filter/ParseDepth.cpp:188-191 | the multiplicative rule reads a printed product as its left-associative value, with truncating division |
| DepthRoundTrip.RelReads | libcbtf-mrnet-filter/ParseDepth.cpp:170-182 | a printed comparison yields the comparison of its sides' values, although shorter operators are tried before longer ones |
| DepthRoundTrip.BooleanReads | libcbtf-mrnet-filter/ParseDepth.cpp:144-168 | a printed place, negation, group or comparison yields its truth value, whichever alternative is tried first |
| DepthRoundTrip.OrReads | libcbtf-mrnet-filter/ParseDepth.cpp:136-142 | a printed disjunction yields its truth value, conjunctions binding tighter |
| DepthScoping.NoStaleValue | libcbtf-mrnet-filter/ParseDepth.cpp:132-244 | for every text whatever, variables that keep values from abandoned alternatives change neither acceptance nor result |
| DepthScoping.MaxAfterNumber | libcbtf-mrnet-filter/ParseDepth.cpp:193-220 | a number followed by a maximum is accepted as one integer, worth the maximum |
| DepthScoping.StaleValueInside | libcbtf-mrnet-filter/ParseDepth.cpp:215-220 | an unclosed maximum after a number is not matched, yet has replaced the number's value |
| DepthAlternatives.SequentialOrExact | libcbtf-mrnet-filter/ParseDepth.cpp:211-220 | for every text, a plain alternative gives the code's verdict if no `max(` directly follows an operand, and otherwise matches nothing; so the code only accepts more, and where both accept they agree |
| DepthAlternatives.MaxAfterNumberAccepted | libcbtf-mrnet-filter/ParseDepth.cpp:193-244 | a whole comparison whose left side is a number followed by a maximum is accepted with the value of the maximum, and a plain alternative would not match it |
| DepthAlternatives.LogicalOrPasses | libcbtf-mrnet-filter/ParseDepth.cpp:136-220 | what the rules with a plain alternative match contains no operand directly followed by `max(` |
| DepthAlternatives.LogicalOrSame | libcbtf-mrnet-filter/ParseDepth.cpp:136-220 | without such a place in the text, both rules take the same steps, with the same variables and the same divisions |
| DepthSelection.ParseDepth | libcbtf-mrnet-filter/ParseDepth.cpp:252-281 | later kinds of children overrule earlier ones: root offsets, leaf offsets, the last expression that parses, and only then `AllOther` |
| DepthSelection.ExpressionSelects | libcbtf-mrnet-filter/ParseDepth.cpp:232-281 | a printed expression that comes last in a depth without offsets selects exactly the nodes it is true of, whatever comes before it |
| DepthSelection.WhoDecides | libcbtf-mrnet-filter/ParseDepth.cpp:252-281 | the last root offsets decide, without any the last leaf offsets, without either the last expression that parses, and else `AllOther`; a depth without all of these selects nothing |
| DepthSelection.LastDepthDecides | libcbtf-mrnet-filter/main.cpp:352-372 | of several depths the last decides, its `AllOther` if those before it do not select the node |
| DepthMeaning.ComparisonsSay | libcbtf-mrnet-filter/ParseDepth.cpp:170-182 | a printed comparison is true exactly of the nodes at which the two values compare as its text says, for each of the six operators |
| DepthMeaning.OperationsSay | libcbtf-mrnet-filter/ParseDepth.cpp:184-191 | a printed operation equals a value exactly if that is the sum, difference or product, or, for a divisor other than zero, the quotient or the remainder of the division whose remainder is smaller than the divisor and has the sign of the dividend |
| DepthMeaning.ExtremaSay | libcbtf-mrnet-filter/ParseDepth.cpp:211-220 | a printed `min` or `max` equals a value exactly if that is one of the operands and bounds both |
| DepthMeaning.KeywordsSay | libcbtf-mrnet-filter/ParseDepth.cpp:197-210 | each of the seven keywords, in any capital and small letters, stands for its own number of the node |
| DepthMeaning.PlacesSay | libcbtf-mrnet-filter/ParseDepth.cpp:148-168 | each of the six places, in any capital and small letters, is true of the nodes that its text describes |
| DepthMeaning.Characters | libcbtf-mrnet-filter/ParseDepth.cpp:148-240 | exactly the six blank characters are skipped, and capital and small letters are the same to keywords |
| DepthMeaning.DecimalDigits | libcbtf-mrnet-filter/ParseDepth.cpp:193 | digits are read as decimal |
| DepthMeaning.NumbersRead | libcbtf-mrnet-filter/ParseDepth.cpp:193 | a decimal number is read exactly if it fits into 32 bits with a sign |
| DepthSelection.PickIsFirst | libcbtf-mrnet-filter/main.cpp:352-386 | the pick is the first specification that takes a fresh node, or none does |
| DepthSelection.AllOtherCoversTheRest | libcbtf-mrnet/MRNet.cpp:275-289 | with `AllOther` last, a node takes the first explicit specification that selects it, otherwise the first `AllOther` that does |
| DepthSelection.DocumentOrderExact | libcbtf-mrnet/MRNet.cpp:284-351 | as sent, for every document, a node takes what was promised exactly if no specification with `AllOther` that takes it precedes the first explicit one that selects it |
| DepthSelection.AllOtherFirstOvertakes | libcbtf-mrnet/MRNet.cpp:334-351 | an `AllOther` listed first takes a node that a later explicit specification names |
| PathSelector.Search | libcbtf-xml/XercesExts.cpp:239-350 | the worklist search ends, its queue sorted over at most two adjacent levels, and yields the recursive meaning of the path, or raises exactly when that is undefined |
| PathSelector.Select | libcbtf-xml/XercesExts.cpp:216-359 | an absolute path starts at the document element, an empty path selects nothing, and the callback is given the matches in order |
| PathMeaning.SelectedByChain | libcbtf-xml/XercesExts.cpp:239-350 | a node is selected exactly if a chain of one node per step leads to it |
| PathMeaning.RaisesIffStuck | libcbtf-xml/XercesExts.cpp:286-297 | the search raises exactly if some chain reaches a `..` step at a node without parent |
| PathMeaning.MovesByText | libcbtf-xml/XercesExts.cpp:255-350 | where each step leads, by its text: the node and its element children, element children, the parent, the node itself, the attribute, the element children of a name |
| PathMeaning.CalledOnce | libcbtf-xml/XercesExts.cpp:216-359 | the callback runs exactly once for every node at the end of a chain, and not at all exactly if a chain is stuck; chains start at the given node for a relative path, and for an absolute one at the document if called there and else at the document element |
| XPathAgreement.AgreesWithXPath | libcbtf-xml/XercesExts.cpp:239-350 | what the search selects from a node, XPath selects too; the two are equal if no `//` step misses elements that a following name, `*` or `@` looks at, or anything at all before other steps, and no `@*` step meets attributes; so for all relative paths without `//` and `@*` for which the search does not raise |
| XPathAgreement.DescendExact | libcbtf-xml/XercesExts.cpp:255-272 | a `//` step reaches no more than the descendant-or-self nodes, and all of them exactly if every child is an element without any children |
| XPathAgreement.TextIsMissed | libcbtf-xml/XercesExts.cpp:255-272 | in `<r><a>t</a></r>`, what follows `a` in `a//..` selects `r` where XPath selects `r` and `a`, although no element is missed |
| XPathAgreement.AbsoluteIsOneDeeper | libcbtf-xml/XercesExts.cpp:224-235 | called on any node but the document, an absolute path selects what it would select from the document with one more step `*` in front |
| XPathAgreement.AbsoluteNameExact | libcbtf-xml/XercesExts.cpp:224-235 | for a path of one name, this is XPath's answer exactly if neither the document element nor a child of it has that name |
| XPathAgreement.RootNameMissed | libcbtf-xml/XercesExts.cpp:224-235 | in `<r/>`, called on `r`, the path `/r` selects nothing, and in XPath `r` |
| StreamTags.NamedStreams.ParseStreamDeclaration | libcbtf-mrnet/NamedStreams.cpp:251-279 | refuses a known name, a known tag or a control tag, and adds any other pair |
| StreamTags.NamedStreams.ParseStream | libcbtf-mrnet/NamedStreams.cpp:229-243 | a known name keeps its tag, a new one gets the next free tag, and the map stays a bijection above the control tags |
| StreamTags.NamedStreams.DrawTag | libcbtf-mrnet/NamedStreams.cpp:235-239 | the loop ends with the smallest free tag from the counter on |
| StreamTags.NamedStreams.ParseDocument | libcbtf-mrnet/NamedStreams.cpp:69-85 | declarations first, then every used name; refused exactly if a declaration is |
| StreamTags.NamedStreams.Encode | libcbtf-mrnet/NamedStreams.cpp:140-193 | the two arrays list every pair once, and decoding them gives the streams back |
| StreamTags.NamedStreams.ReadPacket | libcbtf-mrnet/NamedStreams.cpp:93-129 | the streams are what the packet's arrays decode to, and none if their lengths differ |
| StreamTags.FirstFree | libcbtf-mrnet/NamedStreams.cpp:235-239 | free, at least the start, and everything in between is taken |
| StreamTags.Declared | libcbtf-mrnet/NamedStreams.cpp:251-279 | accepted declarations make a bijection of exactly the declared pairs |
| StreamTags.DeclaredExact | libcbtf-mrnet/NamedStreams.cpp:251-279 | declarations are accepted exactly if no name and no tag is declared twice and all tags are 99 or more |
| StreamTags.StreamsAreProper | libcbtf-mrnet/NamedStreams.cpp:69-85 | a document's streams are a bijection over exactly the declared and used names, declared tags are kept, drawn tags lie in the document's own stretch of the counter, and none is a control tag |
| StreamTags.DrawnTagsAreOwn | libcbtf-mrnet/NamedStreams.cpp:229-243 | two documents share a tag only if one of them declares it |
| StreamTags.DecodeRestores | libcbtf-mrnet/NamedStreams.cpp:93-193 | decoding any listing of a bijection, in any order, restores it |
| FilterNode.HandlerTable.Remove | libcbtf-mrnet/MessageHandlers.cpp:67-72 | exactly the handlers of one network go, the others keep their order |
| FilterNode.HandlerTable.Snapshot | libcbtf-mrnet/MessageHandlers.cpp:86-98 | the handlers of one tag, in the order they were added |
| FilterNode.FilterProcess.RunHandlers | libcbtf-mrnet/MessageHandlers.cpp:81-107 | the snapshot's handlers run in turn until one throws; handled means that some ran and none threw |
| FilterNode.FilterProcess.NameNetworkStreams | libcbtf-mrnet-filter/main.cpp:277-306 | a new network gets its streams, a known one is left alone |
| FilterNode.FilterProcess.SpecifyNetwork | libcbtf-mrnet-filter/main.cpp:316-406 | an unknown, unselected, built or broken-off network is left alone, any other takes the specification and binds its streams until one has no tag or no input to go to |
| FilterNode.HandlerTable.BindStreams | libcbtf-mrnet/LocalComponentNetwork.cpp:116-178 | one handler per incoming stream in order, up to the first that has no tag or no input to go to |
| FilterNode.FilterProcess.Discard | libcbtf-mrnet-filter/main.cpp:415-439 | a destroyed network loses its entry and its handlers in both tables |
| FilterNode.FilterProcess.DownstreamFilter | libcbtf-mrnet-filter/main.cpp:548-621 | configuration packets take effect and are passed on, others are dispatched; the queues leave first, then what was not handled, in order |
| FilterNode.FilterProcess.UpstreamFilter | libcbtf-mrnet-filter/main.cpp:467-530 | packets are dispatched; the queues leave first, then what was not handled, in order |
| FilterNode.ThrowEnds | libcbtf-mrnet/MessageHandlers.cpp:100-104 | a handler that throws is the last to run, whatever follows it in the snapshot |
| FilterNode.BindBreaksOff | libcbtf-mrnet/LocalComponentNetwork.cpp:116-178 | binding stops at the first stream that cannot be bound and keeps what was bound before |
| FilterRuns.RunExact | libcbtf-mrnet/MessageHandlers.cpp:81-107 | handlers run in order up to the first that throws, and all that these send, up and down, is sent |
| FilterRuns.HandledExact | libcbtf-mrnet/MessageHandlers.cpp:81-107 | a packet counts as handled exactly if it has handlers and none of them throws |
| FilterRuns.TagsTellApart | libcbtf-mrnet/MessageTags.hpp:29-90 | no two kinds of messages share a tag |
| HandlerRows.BoundExact | libcbtf-mrnet/LocalComponentNetwork.cpp:116-178 | there is one handler per stream, under the stream's tag and in order, exactly up to the first stream that cannot be bound |
| HandlerRows.RunKeepsTable | libcbtf-mrnet-filter/main.cpp:340-439 | over any run, a network's handlers in both tables are those that its built specification asks for, the downstream ones only if all upstream ones could be bound |
| FilterRuns.CallForwardsControl | libcbtf-mrnet-filter/main.cpp:561-620 | a downstream call passes on exactly the control packets it was given, in order, and keeps every handler owned by a living network |
| FilterRuns.ControlIsForwarded | libcbtf-mrnet-filter/main.cpp:568-598 | no control packet ever counts as handled: stream tags and control tags are disjoint |
| FilterRuns.ForwardsTheRest | libcbtf-mrnet-filter/main.cpp:487-607 | in both directions, every packet of a batch is either handled or forwarded, in arrival order |
| FilterRuns.QueueConserved | libcbtf-mrnet-filter/main.cpp:237-268 | over any interleaving of pushes and calls in both directions, what has left a queue followed by what is in it is what was put on it |
| FilterRuns.DestroyedNeverRuns | libcbtf-mrnet-filter/main.cpp:415-439 | after a network's destruction and any further calls and pushes, no snapshot holds one of its handlers |
| FilterRuns.StaysDestroyed | libcbtf-mrnet-filter/main.cpp:277-306 | over any calls and pushes, a destroyed network stays gone until its streams are named again |
| FilterRuns.OneOwner | libcbtf-mrnet/MessageHandlers.cpp:86-98 | if networks share no tag, all handlers of a snapshot belong to the tag's one owner |
| FilterRuns.BuildsThePick | libcbtf-mrnet-filter/main.cpp:340-405 | whatever calls in both directions and pushes follow, until the network is destroyed, a node whose streams are named builds at most one network per identifier, from the first specification that takes it |
| Isolation.OnlyTheOwnerRuns | libcbtf-mrnet-filter/main.cpp:415-439 | over any run of pushes and calls, whichever networks come and go, every handler found for a tag belongs to the network that owns the tag |
| Isolation.DocumentsAreApart | libcbtf-mrnet/NamedStreams.cpp:229-279 | unless a declared tag clashes, the streams of all documents of one process share no tag |
| Backend.BackendProcess.SpecifyNetworkStreams | libcbtf-mrnet-backend/main.cpp:105-134 | a new network gets its decoded streams, a known one is left alone |
| Backend.BackendProcess.SpecifyNetwork | libcbtf-mrnet-backend/main.cpp:143-195 | a waiting network starts to run with a specification that loads and binds its incoming streams, or breaks off; any other is left alone |
| Backend.BackendProcess.DestroyLocalNetwork | libcbtf-mrnet-backend/main.cpp:204-227 | a known network loses its entry and its handlers |
| Backend.BackendProcess.ReceiveAll | libcbtf-mrnet-backend/main.cpp:272-284 | networks and handlers are what the whole log of messages makes of them |
| Frontend.MRNetComponent.HandleNetwork | libcbtf-mrnet/MRNet.cpp:240-311 | accepts one network only; binds the frontend's incoming streams up to the first that cannot be; sends streams, filters, backends and readiness in this order exactly if it has a network and all its incoming and outgoing streams can be bound, and nothing otherwise |
| Frontend.MRNetComponent.SendFilters | libcbtf-mrnet/MRNet.cpp:334-351 | the first pass sends every filter in document order, the second none |
| Frontend.MRNetComponent.Destroy | libcbtf-mrnet/MRNet.cpp:168-181 | once a network was accepted, tells the tree and takes back exactly the network's handlers |
| Frontend.SendOrder | libcbtf-mrnet/MRNet.cpp:273-310 | whatever other networks put on the link, one network's messages form the script the tree relies on, and others' are untouched |
| Frontend.ScriptCarries | libcbtf-mrnet/MRNet.cpp:273-310 | the script carries the streams first, every filter and backend specification once in document order, and readiness last |
| Frontend.DescriptionReachesAll | libcbtf-mrnet/MRNet.cpp:240-311 | once the script is sent and nothing about the network is on its way, every filter of the tree has the described streams and the first described filter that takes it, and every backend the first described backend, all with their handlers |
| Scripts.ScriptBuildsThePick | libcbtf-mrnet-filter/main.cpp:277-406 | a filter told any script that has not ended has the streams it names and the network of the first suitable specification |
| Scripts.ScriptRunsTheBackend | libcbtf-mrnet-backend/main.cpp:105-195 | a backend told any script that has not ended, among whatever other networks, has the streams it names, runs its first `<Backend>` if that loads, breaks off if not and waits if there is none, and has exactly the handlers that this asks for |
| Scripts.DestroyedBackendIsGone | libcbtf-mrnet-backend/main.cpp:204-227 | once told to destroy a network, a backend has nothing of it |
| Scripts.RunsOnlyConfigured | libcbtf-mrnet-backend/main.cpp:143-195 | a backend runs a network only after both of its messages |
| Scripts.BackendHandlersBelong | libcbtf-mrnet-backend/main.cpp:143-227 | after any messages, every handler of a backend belongs to a network that runs there, under its stream's tag; a destroyed network has none |
| TreeProtocol.InvariantHolds | libcbtf-mrnet-filter/main.cpp:561-620 | in every run on a tree of any shape, for every parent and child, control messages processed by the child followed by those in flight are those processed by the parent, and every node's networks are what its log makes of them |
| TreeProtocol.EdgesKeep | libcbtf-mrnet-filter/main.cpp:561-620 | what a node has processed, followed by its queue, is all that its parent or the frontend has sent, be it control or data |
| TreeProtocol.PathPrefix | libcbtf-mrnet-filter/main.cpp:561-620 | no node is ahead of any node above it, nor of the frontend |
| TreeProtocol.BackendsConfiguredLast | libcbtf-mrnet/MRNet.cpp:294-305 | whenever a backend runs a network, every filter on its path to the root has processed the network's streams and every filter specification, and has settled on its pick unless told to destroy it |
| TreeProtocol.QuietTreeIsSettled | libcbtf-mrnet-filter/main.cpp:277-406 | whatever the order of events, once no message about a network that has not ended is on its way, every filter has built the first specification that takes it, with all its handlers, and every backend runs its network |
| Upstream.CallMaps | libcbtf-mrnet-filter/main.cpp:485-529 | one call sends up what was queued and then the stream's values in order, each with the filter's function applied, or unchanged if the filter was not selected |
| Upstream.NothingLost | libcbtf-mrnet-filter/main.cpp:485-529 | on a tree of any shape and under any schedule of upstream calls, and of downstream calls that leave the filters' roles alone and send nothing up on the stream, the arrived values and the final values of those in flight are, with multiplicity, the compositions of all values brought in |
| ValueOrder.ArrivesInOrder | libcbtf-mrnet-filter/main.cpp:485-529 | on a chain of any length and under any schedule of upstream calls, and of downstream calls that leave the filters' roles alone and send nothing up on the stream, what has arrived is a prefix of what the backend sent with the selected filters' functions composed, and all of it once the queues are empty |
| ValueOrder.LineExtends | libcbtf-mrnet-filter/main.cpp:485-529 | the line of arrived and queued values changes only at its end, by what the backend sends |
| Roles.ConfiguredRows | libcbtf-mrnet-filter/main.cpp:340-405 | over any run of a filter, the handlers of a stream's tag in either direction are those that the specification its network was built from has bound, and none without one |
| Roles.ConfiguredPlays | libcbtf-mrnet-filter/main.cpp:316-530 | a filter told one network's messages among any others plays, for each of the network's streams, the role of the first specification that takes the node: it has exactly one handler if that listens to the stream, and passes values on otherwise |
| Roles.ArrivesAsConfigured | libcbtf-mrnet-filter/main.cpp:277-529 | on a chain of any length whose filters were told one network's messages, values reach the frontend in order as the composition of what the picked specifications mean |
| Roles.TwiceXPlusSix | test/test-mrnet.xml:25-39 | the test network on six processes, configured with its filter specification: the values that come back, incremented by the frontend, are 2x+6 in the order of the inputs |
| ComponentGraph.ComponentImpl.DeclareInput | libcbtf/ComponentImpl.cpp:439-457 | a new name is declared with its handler, a known one refused |
| ComponentGraph.ComponentImpl.DeclareOutput | libcbtf/ComponentImpl.cpp:464-477 | a new name is declared, a known one refused |
| ComponentGraph.ComponentImpl.Connect | libcbtf/ComponentImpl.cpp:221-288 | refuses an unknown output, an unknown input, unequal types and a connection there is, in this order, and otherwise adds the connection at the end |
| ComponentGraph.ComponentImpl.Disconnect | libcbtf/ComponentImpl.cpp:296-352 | refuses an unknown output, an unknown input and a missing connection, and otherwise removes its first occurrence |
| ComponentGraph.ComponentImpl.Emit | libcbtf/ComponentImpl.cpp:485-532 | refuses an undeclared output or a wrong type; otherwise both assertions hold and the handlers called are those of the living connected inputs, in order |
| ComponentRuns.Components.Call | libcbtf/ComponentImpl.cpp:221-477 | one call on component objects that mirror a run's components returns what the run's step returns, and they mirror the result |
| ComponentRuns.Components.CallAllAndEmit | libcbtf/ComponentImpl.cpp:221-532 | after any calls whatever on new component objects, an emission meets neither assertion, is accepted exactly for the type that the output was declared with, and calls the handlers of exactly the inputs that the run reaches, in order |
| ComponentRuns.SoundObject | libcbtf/ComponentImpl.cpp:521-523 | an object that mirrors a component of a sound run meets the emission's assertions |
| ComponentGraph.EveryRunIsSound | libcbtf/ComponentImpl.cpp:221-477 | in every run of declarations, connections, disconnections and destructions, every connection joins a declared output to a declared and handled input of equal type, and none twice |
| ComponentGraph.EmissionReaches | libcbtf/ComponentImpl.cpp:485-532 | after any run an emission reaches every living connected input exactly once and nothing else, with matching types |
| ComponentHistory.HistoryAnswers | libcbtf/ComponentImpl.cpp:221-477 | after any calls, every call returns what the history of calls says: who lives, the type in each port's first declaration, and whether the last call about a connection that was not refused connected it |
| ComponentHistory.PortsAreDeclared | libcbtf/ComponentImpl.cpp:439-477 | a port exists exactly if it was declared on the living component, with the type named in the first such call |
| ComponentHistory.LinkedIffConnected | libcbtf/ComponentImpl.cpp:221-352 | two ports are connected exactly if the last call about them that was not refused was a connect |
| ComponentHistory.LinkedTypesAgree | libcbtf/ComponentImpl.cpp:221-288 | connected ports were declared with equal types |
| ComponentHistory.EmissionReachesLinked | libcbtf/ComponentImpl.cpp:485-532 | an emission reaches exactly the living inputs that the history links to the output, each once and declared with the output's type |
| ComponentGraph.DisconnectUndoes | libcbtf/ComponentImpl.cpp:221-352 | disconnecting a connection just made restores every component |
| ComponentGraph.ConnectAllExact | libcbtf/ComponentImpl.cpp:221-288 | an output can be connected to a list of declared inputs of its type exactly if none is listed twice, and an emission then reaches them in the order of the list |
| Flattening.FlatteningPreserves | libcbtf/ComponentImpl.cpp:485-532 | for components of any behaviour in any acyclic nesting, the same memories, the same handler calls with the same values in the same order, and the same exceptions result when forwarding ports are replaced by direct wires |
| Flattening.DeliverIsFlat | libcbtf-xml/InputMediator.hpp:68-71 | delivering to any port of any network is delivering in turn to the primitive inputs behind it |
| Flattening.EmitIsFlat | libcbtf-xml/OutputMediator.hpp:58-66 | emitting at any declared output, of a component, a mediator or a network, reaches in order what it is directly wired to until something throws; an undeclared one throws |
| Flattening.FeedIsFlat | libcbtf/ComponentImpl.cpp:485-532 | the same for any sequence of values given to a network's input |
| Deliveries.DeliveryCalls | libcbtf/ComponentImpl.cpp:485-532 | a delivery calls the handler, and then for each of its emissions every input behind the output, in order, each with the emitted value and followed by what that leads to; all of them if nothing throws, and the component ends with the memory its handler returned; otherwise up to the call that throws or the output that is not declared |
| Deliveries.DirectIsReachable | libcbtf-xml/Network.cpp:298-403 | an input lies behind an output exactly if some way of wires and forwarding ports leads to it |
| Deliveries.PipelineComposes | libcbtf/ComponentImpl.cpp:485-532 | on a pipeline of any length every handler is called once, with the composition of what the stages before it do |
| VersionChoice.Choose | libcbtf-xml/Network.cpp:197-249 | the result is the one answer that is the latest available version within the bounds that the code reads, or none exactly if there is none |
| VersionChoice.BoundsKeptExact | libcbtf-xml/Network.cpp:199-249 | the choice is the latest within the stated bounds exactly unless a maximum is stated alone and a later version is available |
| VersionChoice.MaximumAloneIsIgnored | libcbtf-xml/Network.cpp:201-212 | a version above a maximum that is stated alone is taken |
| NetworkLoader.NetworkComponent.ParseComponent | libcbtf-xml/Network.cpp:186-251 | a new name gets its component; a known one is refused, and one for which no component could be made |
| NetworkLoader.ComponentsLoaded | libcbtf-xml/Network.cpp:186-251 | a list of components is accepted exactly if its names are new and pairwise distinct and all could be made; then the network knows those and what it knew, each name by its own component |
| NetworkLoader.NetworkComponent.ParseInput | libcbtf-xml/Network.cpp:298-343 | fails exactly for an unknown component, an unknown input or a repeated name; otherwise a new mediator feeds the inner input and handles the network's |
| NetworkLoader.NetworkComponent.ParseConnection | libcbtf-xml/Network.cpp:260-289 | fails exactly for unknown components or a refused connection |
| NetworkLoader.NetworkComponent.ParseOutput | libcbtf-xml/Network.cpp:352-403 | fails exactly for an unknown component, an unknown output or a repeated name; otherwise a new mediator takes the inner output to the network's |
| NetworkLoader.NetworkComponent.Parse | libcbtf-xml/Network.cpp:163-177 | the whole description, components, then inputs, connections and outputs, each in document order; fails exactly if some element cannot be added in its turn |
| LoadConditions.LoadsExactly | libcbtf-xml/Network.cpp:260-403 | inputs, connections and outputs load exactly if every input and output names a port that exists and no name twice, and every connection joins existing ports of equal type that are not connected and is not described twice, all as things are before loading |
| NetworkLoader.LoadedWires | libcbtf-xml/Network.cpp:163-403 | after loading, every output has its old wires, then those of the connections, then those to output mediators, each group in document order |
| NetworkLoader.ProperForwards | libcbtf-xml/Network.cpp:298-403 | every mediator and network that loading has built forwards to a declared output |
| NetworkLoader.InputIsInner | libcbtf-xml/Network.cpp:298-343 | giving a value to a loaded network's input is giving it to the inner input, whatever the memories |
| NetworkLoader.OutputIsShown | libcbtf-xml/Network.cpp:352-403 | what an inner component emits reaches, after everything inside, exactly what the network's outputs that show it reach, in the order of the outputs |
| LeafAssignment.AssignBackends | BasicMRNetLaunchers/BasicMRNetLauncherUsingBackendAttach.cpp:175-182 | every backend gets a leaf that exists, and within the integer widths nothing wraps or is cut off |
| LeafAssignment.LeafInterval | BasicMRNetLaunchers/BasicMRNetLauncherUsingBackendAttach.cpp:177 | a backend goes to a leaf exactly if it lies between the first backends of that leaf and the next |
| LeafAssignment.AssignmentIsFair | BasicMRNetLaunchers/BasicMRNetLauncherUsingBackendAttach.cpp:175-182 | the assignment is monotone, and every leaf gets the floor or the ceiling of backends per leaf |
| LeafAssignment.Balanced | BasicMRNetLaunchers/BasicMRNetLauncherUsingBackendAttach.cpp:175-182 | the set of backends of one leaf has the floor or the ceiling of the quotient as its size |
| Shutdown.AwaitAcknowledgements | libcbtf-mrnet/Frontend.cpp:104-142 | the loop ends after exactly as many acknowledgements as there are backends, raises at a failure before that, and otherwise goes on waiting |
| Shutdown.WhatCounts | libcbtf-mrnet/Frontend.cpp:104-142 | exactly the packets with the tag of an acknowledgement count, each once |
| Shutdown.EveryBackendAcknowledged | libcbtf-mrnet/Frontend.cpp:104-142 | if only backends acknowledge, that count means that every backend has acknowledged, exactly if none did so twice, whatever arrives in between |
| Shutdown.DoubleAcknowledgementMisleads | libcbtf-mrnet-backend/main.cpp:302-305 | two acknowledgements of one backend let the frontend leave while another has sent none |

## Left out

- MRNet itself: processes, sockets, select loops, filter loading, topology lookup. A call's batch, failed ranks and child ranks are arbitrary, and a rank's failure does not change within one call.
- Threads and locks: every method runs alone, and each filter call and each push is one step. Nothing is claimed about progress, such as the exit wait, the launcher's wait, or acknowledgements held back in wait-for-all mode.
- Exceptions that leave a constructor: the object is not used again, so its state is not described.
- Reading and writing XML, schema checks, transcoding, and splitting a path at its slashes: documents are given as finite trees, paths as lists of steps.
- XPath beyond its abbreviated steps: predicates, axes by name and node tests such as `text()`, which the search takes for names; namespaces; CDATA sections and entity references. A path that ends in a slash has an empty last step, which the search takes for `//` and XPath does not have.
- Values selected as text (`getValue`, `selectValue`), which take the node of the lowest address when several match.
- Addresses: matches are visited in address order; the model numbers nodes in document order and takes elements of a description in that order.
- Plugins, component registration, version names (versions are ranks), type names, build strings, value sources and sinks, signal adapters, XDR conversion, launchers other than the index loop: library wrappers or easy members.
- Integers are unbounded except where the expression grammar reads a literal and in the leaf index; sums and products in depth expressions, tags and identifiers do not overflow.
- Division by zero in a depth expression is undefined in the original; the model reports that it was executed.
- Packet sharing: an outgoing mediator retags the packet object it was given; each mediator has its own packet here.
- The two mediators between streams and component networks (`IncomingStreamMediator`, `OutgoingStreamMediator`) and the three initialisation steps of a local network are part of `World`, `Specify` and `Bind`; their once-only guards are not modelled on their own, and outgoing streams of filters and backends only appear in what a network sends.
- Data packets that carry a control tag without its contents are not modelled.
- Output vectors are empty when a filter is called.
- The order in which equal keys are kept in the multimaps is the order of insertion.
- Flattening.Deliver: a handler that catches an exception thrown by its own emission is not modelled; every exception leaves the component it reaches.
- Flattening.FlatteningPreserves: takes acyclicity as given, by a height for every port; a handler is then never entered while it runs, so its emissions can follow its change of memory.
- NetworkLoader.NetworkComponent.ParseComponent: takes the instance, or that there is none, as given, because the factories are not modelled; the choice of its version is `VersionChoice.Choose`.
- NetworkLoader.NetworkComponent.ParseInput: says nothing of the state after a failure, because the exception ends the construction.
- ComponentGraph.ComponentImpl.Emit: lists the handler calls instead of performing them, which `Flattening.Deliver` does; that every run meets its precondition is `ComponentRuns.Components.CallAllAndEmit`.
- Upstream.CallMaps: takes the filter's role as given, which `Roles.ConfiguredPlays` derives from the configuration, and the behaviour of the component networks as well: a network that listens to the stream answers each value by one value on it, and no other handler sends on it.
- ValueOrder.ArrivesInOrder: is about a chain with one backend, and downstream calls that leave the stream's handlers alone and send nothing up on it; on branching trees `Upstream.NothingLost` counts values without their order.
- Roles.TwiceXPlusSix: the frontend's two incrementers and the backend's doubler are applied to the values in the statement; only the filters between them are processes.
- TreeProtocol.BackendsConfiguredLast: assumes that the frontend's messages about one network form a script, which `Frontend.SendOrder` proves of what the frontend sends.
- Shutdown.EveryBackendAcknowledged: assumes that only backends acknowledge; that each sends one, which its straight-line exit does, is not part of this model.
- WaveRuns.Conservation: is about ranks other than the unknown rank; a lone packet of that rank bypasses the buffer, and a batch for a missing stream is dropped.
