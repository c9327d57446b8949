# FilterPype core, modelled in Dafny

FilterPype is a pipes-and-filters engine. A pipeline is built from a
configuration: a `[--main--]` section, a section of keys per filter, and a
`[--route--]` text such as `read_batch >>> (tank_feed >>> tank_queue) sink`.
Stages pass data packets along a `main` arm and, at a fork, a `branch` arm.
Message bottles are packets that carry a message to a named stage or to
every stage of one type. A tank is a priority queue stage; a tank feed loops
packets back onto it, which is how a route recurses.

The Dafny modules follow the repository's structure:

- `errors.dfy`, `strings.dfy`, `values.dfy`: the Python exceptions, the
  `str` operations and the dynamically typed values the engine passes around,
  with Python 2's comparison and equality rules as far as the model follows
  them (`Values.PyLess`, `Values.PyEq`; the gaps are listed under "Left out").
- `filter_utils.dfy`: the helpers of `filter_utils.py` (hex dumps, key/value
  strings, config value conversion, bit counts).
- `route_syntax.dfy`, `route_parser.dfy`, `route_edges.dfy`,
  `route_order.dfy`, `route_results.dfy`, `route_print.dfy`: the route
  compiler of `lex_yacc4.py`. A tokenizer method, the grammar as a parser
  class whose actions append labelled connections, the sort by label, the
  split into connection pairs and the printed form of a route.
- `packets.dfy`: `DataPacket` and `MessageBottle`, with cloning.
- `stage_common.dfy`, `stage_keys.dfy`, `stage_routing.dfy`: the stage
  contract of `data_fltr_base.py`. Keys with defaults and substitutions,
  `send_on` to main and branch, message bottle handling, shut-down and the
  close cascade through a pipeline.
- `stages_plain.dfy`, `stages_buffers.dfy`, `stages_state.dfy`: the stages of
  `data_filter.py`, as stateless functions where the stage keeps no state and
  as classes whose fields the methods update where it does.
- `priority_queue.dfy`, `tank.dfy`: the tank queue, its feed and the
  trampoline that lets a route loop.
- `pipeline.dfy`, `pipeline_config.dfy`, `factory.dfy`: `pipeline.py` and
  `filter_factory.py`. Reading the configuration, making the filters through
  the factory, connecting them along the compiled route and `pump_data`.
- `demo.dfy`: the demonstration stages of `data_fltr_demo.py` and the
  Factorial route of `ppln_demo.py`, run through the tank trampoline.

A stage's `send_on` is modelled by returning the ordered list of the sends it
makes (fork destination and packet). Routing those sends to the next stage is
modelled separately, in `StageRouting`. Clocks, the ConfigObj reader, the PLY
parser generator and file I/O become parameters or are left out.

## Model

| member | source | states |
|---|---|---|
| FilterUtils.LatestDefaults | filterpype/filter_utils.py:407-430 | returns exactly LatestDefaultsOf(keys): one `key:value` (or bare key) per bare key, in first-seen order, carrying the latest value given for it |
| FilterUtils.CollectDefaults | filterpype/filter_utils.py:413-421 | the first loop yields the bare keys in first-seen order (Firsts) and, for each, the value of its last `key:value` entry (LastDefault) |
| FilterUtils.LatestDefaultsSpec | filterpype/filter_utils.py:407-430 | the output has one entry per distinct bare key, every input key's bare name appears, no bare key twice, and each entry carries the latest default given for its key |
| FilterUtils.FirstsMembers | filterpype/filter_utils.py:413-421 | a bare key is listed exactly when some input key has that bare name |
| FilterUtils.FirstsDistinct | filterpype/filter_utils.py:413-421 | no bare key is listed twice |
| FilterUtils.ConvertConfigList | filterpype/filter_utils.py:151-157 | the list is converted item by item, keeping its length |
| FilterUtils.ConvertInvertsStr | filterpype/filter_utils.py:159-236 | convert_config_str reads `str(v)` back as v for None, True, False and every int >= 0 |
| FilterUtils.NoneConverts | filterpype/filter_utils.py:159-236 | the text `None` converts to None |
| FilterUtils.TrueConverts | filterpype/filter_utils.py:159-236 | the text `True` converts to True |
| FilterUtils.FalseConverts | filterpype/filter_utils.py:159-236 | the text `False` converts to False |
| FilterUtils.HexLiteralConverts | filterpype/filter_utils.py:159-236 | a `0x` literal converts to the integer it writes |
| FilterUtils.HexNotFloat | filterpype/filter_utils.py:159-236 | `float()` refuses a `0x` literal, so the hex branch is reached |
| FilterUtils.NegativeIntReadsAsFloat | filterpype/filter_utils.py:159-236 | `-5` is not read as an int (isdigit is false) but as the float `-5` |
| FilterUtils.GetValuesFromName | filterpype/filter_utils.py:368-379 | the name is the text before the first `:` (the whole text without one, with no values); there is one value per further `:`-separated part, each converted by convert_config_str |
| FilterUtils.GetValuesFromNameParts | filterpype/filter_utils.py:368-379 | the name and the raw value texts joined by `:` give the original text back |
| FilterUtils.SplitStrings | filterpype/filter_utils.py:554-558 | size 0 raises ValueError, a negative size gives no pieces; for a positive size the pieces concatenate to the data, are non-empty, at most n long, and all but the last exactly n long |
| FilterUtils.StripNumberSuffix | filterpype/filter_utils.py:560-569 | removes exactly the maximal trailing run of digits and `_`: a prefix that does not end in one, followed only by such chars |
| FilterUtils.StripPrefix | filterpype/filter_utils.py:571-580 | None stays None; a text without the separator is returned whole |
| FilterUtils.StripPrefixOneSep | filterpype/filter_utils.py:571-580 | with exactly one separator the text after it is returned |
| FilterUtils.StripLabelsSep | filterpype/filter_utils.py:582-587 | removing `dddd~` labels works piece by piece across a char that is neither digit nor `~` |
| FilterUtils.StripLabelsNone | filterpype/filter_utils.py:582-587 | text without `~` is unchanged |
| FilterUtils.StripLabelFront | filterpype/filter_utils.py:582-587 | a four-digit label and its `~` are removed from the front of a token |
| FilterUtils.Unindent | filterpype/filter_utils.py:589-622 | [] gives []; a non-empty list of blank lines raises ValueError; otherwise every line loses the minimum indent of the non-blank lines, and some non-blank line then starts flush |
| FilterUtils.HexPairRoundTrip | filterpype/filter_utils.py:64-70 | hex_to_dat maps each byte's two upper-case hex digits back to the byte |
| FilterUtils.SliceTo | filterpype/filter_utils.py:335-341 | `lst[:limit]` is a prefix of the list whose length follows Python's rule for None, non-negative and negative limits |
| FilterUtils.HexStringToData | filterpype/filter_utils.py:381-405 | the result holds bytes only, and the only error is KeyError |
| FilterUtils.HexRoundTripDefault | filterpype/filter_utils.py:381-405 | hex_string_to_data undoes data_to_hex_string (lines 335-341) with the default separators |
| FilterUtils.HexRoundTripSep | filterpype/filter_utils.py:381-405 | the same round trip with any one-char separator that is not a hex digit |
| FilterUtils.PadString | filterpype/filter_utils.py:448-452 | the text is a prefix of the result; a text at least `length` long is returned whole; with a one-char pad the result is `length` long |
| FilterUtils.PadStringChars | filterpype/filter_utils.py:448-452 | every char after the text is the pad char |
| FilterUtils.ReverseByte | filterpype/filter_utils.py:508-552 | the result is a byte (< 256) |
| FilterUtils.ReverseByteBits | filterpype/filter_utils.py:508-552 | bit i of the result is bit 7 - i of the low byte of the input |
| FilterUtils.ReverseByteInvolution | filterpype/filter_utils.py:508-552 | reversing twice gives the input's low eight bits back |
| FilterUtils.ReverseBytePopCount | filterpype/filter_utils.py:508-552 | reversal keeps the number of set bits |
| FilterUtils.BitSumChar | filterpype/filter_utils.py:119-132 | the shift loop counts the set bits of the char's low byte (PopCount) |
| FilterUtils.BitSum | filterpype/filter_utils.py:117-118 | the total of set bits over all the chars (BitCount) |
| FilterUtils.BitCountAppend | filterpype/filter_utils.py:117-118 | bit counts add up over concatenation |
| Values.PyLessAcrossKinds | filterpype/data_filter.py:340-360 | the Python 2 ordering BranchIf relies on: None is below every other value and a string above every number |
| Values.PyLessIrreflexive | filterpype/data_filter.py:340-360 | no value compares below itself |
| Values.Set | filterpype/data_fltr_base.py:1400-1407 | setting a packet attribute stores the value under that name and keeps every other attribute |
| Packets.NewPacket | filterpype/data_fltr_base.py:1400-1407 | the packet has the standard attributes plus the keyword arguments, each keyword value on top; data and seq_num come from the arguments unless a keyword overrides them |
| Packets.PacketOf | filterpype/data_fltr_base.py:1400-1407 | `DataPacket(d)` carries d, has exactly the standard attributes and is not a message |
| Packets.Clone | filterpype/data_fltr_base.py:1414-1448 | the clone has the standard attributes, the packet's attributes and the keyword arguments; keywords win, then the packet's own values; data is replaced only by non-empty new data |
| Packets.CloneIsCopy | filterpype/data_fltr_base.py:1414-1448 | a clone with no arguments equals the packet |
| Packets.CloneWithStr | filterpype/data_fltr_base.py:1414-1448 | a clone with non-empty string data carries that data and is a message exactly when the original is |
| Packets.DataLength | filterpype/data_fltr_base.py:1450-1463 | the length of string data, 0 for anything else |
| Packets.DataLengthClone | filterpype/data_fltr_base.py:1450-1463 | the clone with new string data s has data length equal to the length of s |
| Packets.MessageBottle | filterpype/data_fltr_base.py:1506-1523 | fails exactly for a repeated `destination`, `message` or `single_use` keyword (TypeError, first), an empty message or a `data` keyword (MessageError) or a `values` keyword (TypeError); a bottle's data is always '' |
| Packets.Bottled | filterpype/data_fltr_base.py:1506-1523 | the bottle holds destination, message name, converted values and single_use, plus every keyword argument |
| Packets.BottleKeepsKwargs | filterpype/data_fltr_base.py:1506-1523 | every keyword argument of an accepted bottle becomes an attribute with that value |
| Packets.BottleIsMessage | filterpype/data_fltr_base.py:1506-1523 | a non-empty message builds a bottle that takes the message path |
| PriorityQueues.MinIndex | filterpype/data_fltr_base.py:1567-1570 | heappop removes an entry that nothing precedes in (priority, posting time) order, the first such |
| PriorityQueues.RemoveTakesOne | filterpype/data_fltr_base.py:1567-1570 | a pop takes exactly that one entry out of the queue |
| PriorityQueues.PopOrderPermutes | filterpype/data_fltr_base.py:1575-1576 | popping everything returns exactly the entries pushed |
| PriorityQueues.PoppedFirst | filterpype/data_fltr_base.py:1567-1570 | the popped entry comes before every entry left behind |
| PriorityQueues.PopsAscending | filterpype/data_fltr_base.py:1550-1573 | with distinct posting times, pops come out in ascending priority, equal priorities in push order |
| PriorityQueues.RisingPrioritiesPopInPushOrder | filterpype/data_fltr_base.py:1550-1558 | pushes whose priorities rise (as the counter gives them) pop in push order: FIFO |
| PriorityQueues.FindMin | filterpype/data_fltr_base.py:1567-1570 | the scan finds the entry heappop removes |
| PriorityQueues.PriorityQueue.constructor | filterpype/data_fltr_base.py:1533-1536 | an empty queue with the counter at 1 |
| PriorityQueues.PriorityQueue.Clear | filterpype/data_fltr_base.py:1546-1548 | empties the queue; the counter carries on |
| PriorityQueues.PriorityQueue.Push | filterpype/data_fltr_base.py:1550-1558 | appends the item at its priority, or at the counter (which then goes up by one) when none is given; the insertion stamp replaces time.time() |
| PriorityQueues.PriorityQueue.PushNone | filterpype/data_fltr_base.py:1560-1565 | appends a None placeholder at priority -1000 |
| PriorityQueues.PriorityQueue.Pop | filterpype/data_fltr_base.py:1567-1570 | IndexError on an empty queue; otherwise returns and removes the least entry |
| PriorityQueues.PriorityQueue.QueueSize | filterpype/data_fltr_base.py:1572-1573 | the number of entries, placeholders included |
| PriorityQueues.PriorityQueue.SortedItems | filterpype/data_fltr_base.py:1575-1576 | the entries in the order repeated pops would return them, ascending |
| PriorityQueues.PopExample | filterpype/data_fltr_base.py:1550-1573 | priorities 6, 5, -1 pop as -1, 5, 6 |
| RouteSyntax.NameLen | filterpype/lex_yacc4.py:408-415 | t_FILTER's greedy match: the longest leading run of name chars |
| RouteSyntax.CommentLen | filterpype/lex_yacc4.py:416-418 | a `#` comment runs up to, not including, the next newline |
| RouteSyntax.ScanHead | filterpype/lex_yacc4.py:100-112 | at each position one rule matches: a FILTER labelled 10 above the counter (which then goes up by 10), `(`, `)`, `>>>`, or skipped blanks, newlines and comments; no rule matches exactly at an illegal char |
| RouteSyntax.Lex | filterpype/lex_yacc4.py:426-432 | an illegal char makes the lexer fail with SyntaxError and nothing else |
| RouteSyntax.LexLabels | filterpype/lex_yacc4.py:408-415 | every FILTER token is a name, and the labels go up by 10 from the counter in reading order |
| RouteSyntax.CommentSkipped | filterpype/lex_yacc4.py:416-425 | a comment up to the end of its line produces no tokens |
| RouteSyntax.ParsePipe | filterpype/lex_yacc4.py:308-354 | the `pipe` productions consume at least one token and fail only with SyntaxError |
| RouteSyntax.ParseRest | filterpype/lex_yacc4.py:313-354 | the left-recursive `pipe >>> FILTER` and `pipe >>> branch FILTER` productions never consume more than they are given and fail only with SyntaxError |
| RouteSyntax.ParseBranch | filterpype/lex_yacc4.py:356-359 | the start symbol `branch`; a failure (p_error) is a SyntaxError |
| RouteSyntax.ParseTokens | filterpype/lex_yacc4.py:308-354 | reading a pipe's own tokens gives the pipe back, whatever tokens follow |
| RouteSyntax.ParsedTokens | filterpype/lex_yacc4.py:308-354 | whatever the parser accepts is some pipe's tokens followed by what it leaves |
| RouteSyntax.ParseBranchExact | filterpype/lex_yacc4.py:356-359 | the grammar accepts a token list exactly when it is `(`, the tokens of a pipe, and `)`, and it then yields that pipe |
| RouteSyntax.ParseBranchFilters | filterpype/lex_yacc4.py:306-359 | the parse tree keeps the FILTER tokens in order |
| RouteEdges.EdgeLabels | filterpype/lex_yacc4.py:125-159 | every connection of a pipe is written under a distinct label between its first and last FILTER, ending in 0, 4 or 5 |
| RouteEdges.ForkNumbers | filterpype/lex_yacc4.py:199-207 | forks are named hidden_branch_route_NN with NN = base+1, base+2, ... in the order their `(` is read |
| RouteEdges.ForkLabels | filterpype/lex_yacc4.py:199-207 | each fork node's label lies between the pipe's first and last FILTER labels |
| RouteEdges.ForkNodeNum | filterpype/lex_yacc4.py:204 | a fork is labelled its predecessor's label + 5, so its label ends in 5 |
| RouteEdges.PipeEnds | filterpype/lex_yacc4.py:150-159 | a pipe's own connections contain one `>>> None` per fork: every branch's last filter gets one |
| RouteEdges.ForkEdgesOf | filterpype/lex_yacc4.py:125-148 | a fork adds the `^^^` edge at fork - 1, the branch's `>>> None`, the edge into the fork and the fork's `>>>` edge, after the pipe's and the branch's connections |
| RouteOrder.ZeroPad4 | filterpype/lex_yacc4.py:139-142 | `'%4.4d' % n` is exactly the four digits of n below 10000 |
| RouteOrder.Pad4Less | filterpype/lex_yacc4.py:236 | four-digit labels sort as their numbers, whatever text follows them |
| RouteOrder.EdgeTextLess | filterpype/lex_yacc4.py:236 | a connection written under a lower label sorts first |
| RouteOrder.SortedLabels | filterpype/lex_yacc4.py:236 | in the sorted strings, an earlier string belongs to a connection with a lower label |
| RouteOrder.Neighbours | filterpype/lex_yacc4.py:236 | connections with adjacent labels sit next to each other after sorting |
| RouteOrder.Gaps | filterpype/lex_yacc4.py:139-142 | no label lies between 10k and 10k+4 or between 10k+4 and 10k+5 |
| RouteOrder.RouteLabels | filterpype/lex_yacc4.py:209-255 | the whole route's connections have distinct labels below 10000, ending in 0, 4 or 5 |
| RouteOrder.SortedForks | filterpype/lex_yacc4.py:236 | after `connections.sort()`, each fork's `^^^` edge comes right after the edge into the fork and right before the fork's `>>>` edge |
| RouteCompiler.LStripParens | filterpype/lex_yacc4.py:125-148 | `lstrip('()')` removes exactly the leading run of parentheses |
| RouteCompiler.RStripParens | filterpype/lex_yacc4.py:125-148 | `rstrip('()')` removes exactly the trailing run of parentheses |
| RouteCompiler.ParseLabel | filterpype/lex_yacc4.py:139-142 | `int()` on a label succeeds exactly on a run of digits, ValueError otherwise |
| RouteCompiler.ConnectionText | filterpype/lex_yacc4.py:125-148 | `_connect_pipes` fails with IndexError on an empty pipe and otherwise only with IndexError or ValueError |
| RouteCompiler.ConnectMain | filterpype/lex_yacc4.py:125-148 | `pipe >>> x` connects the pipe's last FILTER to x's first word |
| RouteCompiler.ConnectEnd | filterpype/lex_yacc4.py:150-159 | with no second pipe the connection is `last >>> None` |
| RouteCompiler.ConnectBranch | filterpype/lex_yacc4.py:139-142 | a branch connection `fork ^^^ x` is written under the fork's label minus one |
| RouteCompiler.ForkText | filterpype/lex_yacc4.py:199-207 | `_start_branch` fails with IndexError on an empty previous pipe, otherwise only with IndexError or ValueError |
| RouteCompiler.ForkNamed | filterpype/lex_yacc4.py:199-207 | after a pipe ending in FILTER b, fork number k is named hidden_branch_route_k and labelled b's label + 5 |
| RouteCompiler.EndTexts | filterpype/lex_yacc4.py:150-159 | `_end_branch` writes two connections when the branch has a fork, one otherwise |
| RouteCompiler.EndEdges | filterpype/lex_yacc4.py:150-159 | a branch's end is `fork ^^^ first` (at fork - 1) then `last >>> None` |
| RouteCompiler.EndEdgesOuter | filterpype/lex_yacc4.py:150-159 | the outer branch has no fork: only its last FILTER gets `>>> None` |
| RouteCompiler.Pipe3Texts | filterpype/lex_yacc4.py:332-354 | `pipe >>> branch FILTER` writes two connections and needs a fork on the stack |
| RouteCompiler.RemakeConnection | filterpype/lex_yacc4.py:396-407 | remake_connection fails (IndexError) exactly when the link has fewer than three words |
| RouteCompiler.FromNames | filterpype/lex_yacc4.py:234-247 | one from-side name per link: its first word with the label stripped |
| RouteCompiler.RouteParser.constructor | filterpype/lex_yacc4.py:114-123 | no connections, an empty fork stack, both counters at 0 |
| RouteCompiler.RouteParser.Tokenize | filterpype/lex_yacc4.py:408-432 | the tokens are Lex's, and the token counter goes up by 10 per FILTER |
| RouteCompiler.RouteParser.ConnectPipes | filterpype/lex_yacc4.py:125-148 | appends the connection text on success and leaves the connections alone on error |
| RouteCompiler.RouteParser.StartBranch | filterpype/lex_yacc4.py:199-207 | bumps the branch counter and names the fork with the new count |
| RouteCompiler.RouteParser.StartBranchAction | filterpype/lex_yacc4.py:379-394 | inside a pipe, names and pushes the fork; for the outer branch (or an IndexError) the value is None and nothing is pushed |
| RouteCompiler.RouteParser.EndBranch | filterpype/lex_yacc4.py:361-377 | appends `_end_branch`'s connections, or none on error |
| RouteCompiler.RouteParser.PipeJoin | filterpype/lex_yacc4.py:313-330 | `pipe >>> FILTER` appends one connection and joins the texts with a blank |
| RouteCompiler.RouteParser.PipeBranch | filterpype/lex_yacc4.py:332-354 | `pipe >>> branch FILTER` appends two connections and pops the fork |
| RouteCompiler.RouteParser.ReduceThen | filterpype/lex_yacc4.py:313-320 | reducing `pipe >>> FILTER` appends the pipe's connections and then the one to the FILTER, in label order, and leaves the fork stack as it was |
| RouteCompiler.RouteParser.ReduceFork | filterpype/lex_yacc4.py:332-343 | reducing `pipe >>> (branch) FILTER` appends the pipe's, the branch's and the join's connections, counts every fork inside and leaves the fork stack as it was |
| RouteCompiler.RouteParser.OpenFork | filterpype/lex_yacc4.py:379-394 | before a branch, the pipe's connections are appended and start_branch names the fork after the pipe's last FILTER with the next count and pushes it |
| RouteCompiler.RouteParser.CloseBranch | filterpype/lex_yacc4.py:356-377 | end_branch appends the branch's connections, then the fork `^^^` the branch's first FILTER and its last FILTER `>>> None` |
| RouteCompiler.RouteParser.JoinFork | filterpype/lex_yacc4.py:332-343 | the pipe's last FILTER connects to the fork, the fork to the FILTER after the branch, and the fork is popped from the stack |
| RouteCompiler.RouteParser.ReducePipe | filterpype/lex_yacc4.py:308-394 | running the grammar actions over a parse tree appends exactly that tree's Edges, counts its forks and leaves the fork stack as it was |
| RouteCompiler.RouteParser.ReduceRoute | filterpype/lex_yacc4.py:209-233 | the actions for `( route )` leave the route's text and all its connections, ends included |
| RouteCompiler.RouteParser.FinishRoute | filterpype/lex_yacc4.py:227-255 | cuts the outer branch's value to the route, sorts, remakes the links and lists the from-side names |
| RouteCompiler.RouteParser.DistinctNames | filterpype/lex_yacc4.py:240-247 | lists each from-side name once, in order of first appearance |
| RouteCompiler.RouteParser.ParseRoute | filterpype/lex_yacc4.py:209-255 | parse_route on the fields equals the whole-route function CompileRoute |
| RouteResults.UnlabelFmt | filterpype/lex_yacc4.py:396-407 | strip_prefix takes a node's `NNNN~` label off and leaves its name |
| RouteResults.RemakeEdge | filterpype/lex_yacc4.py:396-407 | remake_connection of a labelled connection is the same connection between bare names |
| RouteResults.SortTexts | filterpype/lex_yacc4.py:236 | sorting the connections sorts their strings |
| RouteResults.SortedByLabel | filterpype/lex_yacc4.py:236 | with distinct four-digit labels the sorted connections are in label order |
| RouteResults.ByLabelUnique | filterpype/lex_yacc4.py:236 | two label-ordered lists of the same connections are equal, so the sorted order is determined |
| RouteResults.OuterBranch | filterpype/lex_yacc4.py:227-233 | the outer branch's value is `None (route)`; cutting five chars and the parentheses gives the route back |
| RouteResults.FinishTree | filterpype/lex_yacc4.py:227-255 | for a parse tree, the last step yields the unlabelled route, the connections in sorted order and the distinct from-side names |
| RouteResults.CompiledRoute | filterpype/lex_yacc4.py:209-255 | for a route that parses to tree p: the route with labels stripped, the connections with bare names in label order, and the distinct from-side names in that order |
| RouteResults.CompileRouteCases | filterpype/lex_yacc4.py:209-266 | a blank route gives nothing; SyntaxError exactly when the lexer or the grammar rejects `( route )`; no other error |
| RouteResults.ChainCompiled | filterpype/lex_yacc4.py:313-320 | `a >>> b` compiles to exactly `a >>> b`, `b >>> None`, with names a and b |
| RouteResults.ForkCompiled | filterpype/lex_yacc4.py:332-343 | `a >>> (b) c` compiles to `a >>> hidden_branch_route_01`, `hidden_branch_route_01 ^^^ b`, `hidden_branch_route_01 >>> c`, `b >>> None`, `c >>> None` |
| RouteCut.SplitSecond | filterpype/lex_yacc4.py:230 | `split(sep)[1]` fails exactly when sep does not occur |
| RouteCut.CutShort | filterpype/lex_yacc4.py:230 | a second `None ` inside the route makes `split('None ')[1]` stop short of the closing parenthesis |
| RouteCut.NoneSuffixCut | filterpype/lex_yacc4.py:230-233 | as written, the last step rejects a chain whose first name ends in `None` |
| RouteCut.NoneSuffixRejected | filterpype/lex_yacc4.py:230 | `xNone >>> b` is rejected with SyntaxError as written, while CompileRoute compiles it |
| RoutePrint.CountSteps | filterpype/lex_yacc4.py:161-187 | the `while c in txt` loop adds one step per occurrence of c |
| RoutePrint.PipelineForPrint | filterpype/lex_yacc4.py:161-187 | the loop over the route's words equals PrintLines |
| RoutePrint.RenderIndent | filterpype/lex_yacc4.py:161-187 | line i is indented four blanks per branch open at word i |
| RoutePrint.PrintedLines | filterpype/lex_yacc4.py:161-187 | one line per word; every line but the last as rendered, and the last without its ` >>>` |
| RoutePrint.RenderedArrow | filterpype/lex_yacc4.py:161-187 | every rendered line of a word that does not close a branch ends in ` >>>` |
| RoutePrint.PrintBlank | filterpype/lex_yacc4.py:161-187 | pipeline_for_print fails exactly on a route with no words |
| StageCommon.Attr | filterpype/data_filter.py:342 | `getattr(packet, name)` succeeds exactly when the packet has the attribute, returning its value, and fails with AttributeError otherwise |
| StageCommon.Bound | filterpype/data_filter.py:1249-1250 | a Python slice bound: a non-negative index is clipped to the length, a negative one counts from the end and is clipped at 0 |
| StageCommon.PySlice | filterpype/data_filter.py:1249-1250 | `s[i:j]` is the run between the normalised bounds, and empty when they cross |
| StageCommon.Head | filterpype/data_filter.py:1249 | `s[:k]` for k >= 0 is the first k items, or all of s when k exceeds its length |
| StageCommon.Tail | filterpype/data_filter.py:1250 | `s[k:]` for k >= 0 is what follows the first k items, and empty past the end |
| StageCommon.HeadTail | filterpype/data_filter.py:1249-1250 | `s[:k] + s[k:] == s` for every integer k, negative ones included, so header and remainder never lose or repeat data |
| StageCommon.SliceValue | filterpype/data_filter.py:1561 | slicing packet data succeeds exactly for strings and lists, and on a string is the string slice |
| StageCommon.HeadValue | filterpype/data_filter.py:1472 | `data[:k]` succeeds exactly for strings and lists, and on a string is Head |
| StageCommon.TailValue | filterpype/data_filter.py:1474 | `data[k:]` succeeds exactly for strings and lists, and on a string is Tail |
| StageCommon.Find | filterpype/data_filter.py:161 | `s.index(t)` is the leftmost position where t occurs; it is absent (ValueError) exactly when t occurs nowhere |
| StageCommon.FindShift | filterpype/data_filter.py:161 | occurrences of t in s away from its head are exactly those in s minus its first char, one place later |
| StageCommon.JoinSplitOn | filterpype/data_filter.py:2291 | joining the pieces of `s.split(sep)` with sep gives back s |
| StageCommon.SplitOnPiecesFree | filterpype/data_filter.py:2291 | no piece of `s.split(sep)` but the last contains sep |
| StageKeys.AllKeysTwoBases | filterpype/data_fltr_base.py:357-374 | a class's keys are its second base's, then its first base's, then its own, merged by bare name keeping the latest default |
| StageKeys.BaseKeysInherited | filterpype/data_fltr_base.py:357-374 | every key a base class declares appears among the subclass's keys under its bare name |
| StageKeys.DefaultsOf | filterpype/data_fltr_base.py:430-461 | `_defaults` has an entry exactly for each bare name written with a default, holding the converted text of its last default |
| StageKeys.BareKeys | filterpype/data_fltr_base.py:430-461 | `_keys` lists, in order and one for one, the config keys stripped of their `:default` part |
| StageKeys.KeyValuesRun | filterpype/data_fltr_base.py:768-799 | setting route values never drops or changes an attribute already set, and its only error is FilterAttributeError |
| StageKeys.KeyValuesFail | filterpype/data_fltr_base.py:768-799 | with distinct keys it fails exactly when some key already holds a value that its route value conflicts with |
| StageKeys.FailureShifts | filterpype/data_fltr_base.py:768-799 | after a first pair that does not conflict, a later pair conflicts against the updated attributes exactly when it did against the old ones |
| StageKeys.KeyValuesSet | filterpype/data_fltr_base.py:768-799 | on success each paired key holds its route value if it was unset and its old value otherwise, and no other key is added |
| StageKeys.SameValueTwice | filterpype/data_fltr_base.py:768-799 | a key given twice in the route with the same value is accepted and set once |
| StageKeys.SubstName | filterpype/data_fltr_base.py:837-876 | the name inside a `${name}` substitution, so that wrapping it gives back the value |
| StageKeys.SubstitutionsRun | filterpype/data_fltr_base.py:837-876 | substitution keeps the set of attributes and its only error is FilterAttributeError |
| StageKeys.SubstitutionsResolve | filterpype/data_fltr_base.py:837-876 | with distinct keys and every `${x}` resolvable, it succeeds, each such key takes the pipeline's x and every other attribute is unchanged |
| StageKeys.Stage.constructor | filterpype/data_fltr_base.py:220-278 | a new stage holds its keyword arguments as attributes and as filter_attrs, the keys gathered from its class, the route values a `_key_values` list argument brings (none without one), and is not primed |
| StageKeys.Stage.ExtractDefaultsFromKeys | filterpype/data_fltr_base.py:430-461 | the loop sets `_keys` to BareKeys and `_defaults` to DefaultsOf the class's keys and changes nothing else |
| StageKeys.Stage.SetKeyValues | filterpype/data_fltr_base.py:768-799 | the loop leaves the attributes and error that KeyValuesRun gives, and nothing else changes |
| StageKeys.Stage.SetDefaults | filterpype/data_fltr_base.py:746-766 | each default fills its key only when unset; set attributes keep their values |
| StageKeys.Stage.UpdateFromFactory | filterpype/data_fltr_base.py:825-835 | without a factory nothing changes; with one, exactly the unset keys the factory's essentials list are added, with the factory's values |
| StageKeys.Stage.UpdateSubstitutions | filterpype/data_fltr_base.py:837-876 | without a parent pipeline nothing changes; otherwise the attributes and error are those of SubstitutionsRun |
| StageKeys.Stage.Validate | filterpype/data_fltr_base.py:881-910 | succeeds exactly when the ftype exists and is lower case, the keys are distinct, lower case and present, every filter attribute is a key or a standard key, and the custom check passes; otherwise FilterAttributeError or the custom error |
| StageKeys.Stage.Prime | filterpype/data_fltr_base.py:595-613 | priming a primed stage raises FilterError; otherwise it succeeds and the stage is primed |
| StageKeys.DistinctCheck | filterpype/data_fltr_base.py:887 | the scan answers true exactly when the keys are pairwise distinct |
| StageRouting.SendOn | filterpype/data_fltr_base.py:995-1083 | with no next stage nothing is sent; a fork_dest other than 'main' or 'branch' is a FilterRoutingError; a packet goes on exactly for 'main', or for 'branch' when a fork follows, stamped with sent_from and fork_dest |
| StageRouting.RouteFork | filterpype/data_fltr_base.py:1485-1492 | the fork succeeds exactly when fork_dest is 'main' or 'branch' (KeyError otherwise), picks that arm and clears fork_dest |
| StageRouting.SendThroughFork | filterpype/data_fltr_base.py:995-1083 | a send to 'main' or 'branch' before a fork reaches the arm of that name with its data unchanged and fork_dest cleared |
| StageRouting.BranchWithoutForkDropped | filterpype/data_fltr_base.py:995-1083 | without a fork after the stage, its branch output goes nowhere |
| StageRouting.MessageActions | filterpype/data_fltr_base.py:1161-1226 | a bottle without destination is an AttributeError; at its named stage it is opened and goes no further; at a matching type it needs single_use; it is only opened where name or type match |
| StageRouting.MessageActionsAsWritten | filterpype/data_fltr_base.py:1161-1226 | where the code as written raises nothing, it does what MessageActions does |
| StageRouting.MultiUseBottleFails | filterpype/data_fltr_base.py:1175 | a multi-use bottle addressed to a stage type is opened and then raises TypeError, where the intended behaviour sends it on along branch and main |
| StageRouting.OpenMessageBottle | filterpype/data_fltr_base.py:1240-1262 | only a 'reset' message opens (MessageError otherwise); it sets exactly the attribute named by param_name to new_value and leaves the others alone |
| StageRouting.HandleMessage | filterpype/data_fltr_base.py:1136-1226 | a message bottle's dispatch: no destination is an AttributeError; a non-reset message at its named stage is a MessageError; a bottle opened at its own stage is never sent on |
| StageRouting.Height | filterpype/data_fltr_base.py:637-658 | every stage tree is at least one level deep |
| StageRouting.RecurseDepth | filterpype/data_fltr_base.py:637-658 | the recursive walk succeeds exactly when no stage sits deeper than the recursion limit of 50 levels |
| StageRouting.RecurseOwnFirstOrLast | filterpype/data_fltr_base.py:668-743 | preorder calls the stage's own functions before any child's, postorder after all of them |
| StageRouting.StageNode.constructor | filterpype/data_fltr_base.py:220-355 | a new stage records its parent pipeline, has no cached refinery and is not shutting down |
| StageRouting.StageNode.GetRefinery | filterpype/data_fltr_base.py:534-548 | returns the top of the parent chain, caches it, and changes no parent link or shutting-down flag |
| StageRouting.StageNode.ShutDown | filterpype/data_fltr_base.py:1085-1103 | afterwards the refinery's flag is set, so every stage under it reads as shutting down, and no other flag changes |
| StageRouting.CloseEventsAlternate | filterpype/data_fltr_base.py:108-131 | however far closing gets, each stage's flush comes right before its own close |
| StageRouting.CloseReachesAll | filterpype/data_fltr_base.py:399-410 | closing a chain whose coroutines all started closes every stage exactly once, each branch before its fork |
| StageRouting.UnstartedStopsClose | filterpype/data_fltr_base.py:108-131 | a stage never started stops the close: nothing after it is closed |
| StageRouting.CloserOutcome | filterpype/data_fltr_base.py:108-131 | an error escapes the closer unless it is in the FilterError family while shutting down, and then it is the error raised |
| StageRouting.MessageErrorEscapes | filterpype/data_fltr_base.py:108-131 | MessageError is not a FilterError, so a bad message escapes even while shutting down |
| PlainStages.PassThrough | filterpype/data_filter.py:1542-1543 | every packet goes on, unchanged, to main, once |
| PlainStages.Waste | filterpype/data_filter.py:2639-2640 | nothing is ever sent on |
| PlainStages.BranchRef | filterpype/data_filter.py:414-417 | the same packet object goes to the branch first and then to main, so main sees whatever the branch did to it |
| PlainStages.BranchRefSeesBranchChanges | filterpype/data_filter.py:414-417 | after a branch that changes its packet, BranchRef's main output differs from the input while BranchClone's main output is the input itself |
| PlainStages.BranchClone | filterpype/data_filter.py:285-288 | a clone goes to the branch and the packet itself to main; the clone has the packet's attributes plus the standard ones, and equals the packet when those are present |
| PlainStages.CloneIsCopy2 | filterpype/data_fltr_base.py:1414-1448 | cloning a packet that already carries the standard attributes, with nothing overridden, gives the same packet |
| PlainStages.BranchFirstPart | filterpype/data_filter.py:320-325 | without branch_up_to it is an AttributeError; with branch_up_to not positive the packet goes to main unchanged; otherwise main is last and any other send is to the branch |
| PlainStages.BranchFirstPartSplits | filterpype/data_filter.py:320-325 | for string data and a positive branch_up_to, the branch gets the first branch_up_to chars and main the rest, which together are the data |
| PlainStages.Compare | filterpype/data_filter.py:346-356 | equals, not_equals, less_than and greater_than compare with Python's == and <; any other comparison is a FilterLogicError |
| PlainStages.CompareAsWritten | filterpype/data_filter.py:346-356 | as written it agrees with Compare on the four known comparisons, and any other one is a NameError |
| PlainStages.UnknownComparisonIsNameError | filterpype/data_filter.py:355-356 | an unknown comparison raises NameError, which is outside the FilterError family, where FilterLogicError was intended |
| PlainStages.BranchIf | filterpype/data_filter.py:340-360 | the key is read from the packet or the stage as branch_on_packet says (AttributeError when absent); the packet goes to branch when the comparison holds and to main otherwise |
| PlainStages.NotEqualsOpposite | filterpype/data_filter.py:340-360 | not_equals sends every packet the other way from equals |
| PlainStages.GetBytes | filterpype/data_filter.py:1421-1432 | an attribute the packet already has cannot be reset (FilterAttributeError); otherwise one packet goes to main with that attribute added and all others kept |
| PlainStages.GetBytesWithin | filterpype/data_filter.py:1421-1432 | within the data, the attribute holds exactly bytes_to_get chars from start_byte on, and applying GetBytes again fails |
| PlainStages.HeaderAsAttribute | filterpype/data_filter.py:1462-1475 | a packet no longer than the header is dropped unless send_on_if_only_header; anything sent is one packet to main with the header attribute added |
| PlainStages.HeaderAsAttributeSplits | filterpype/data_filter.py:1462-1475 | the header attribute followed by the new data is the old data, and no other attribute changes |
| PlainStages.SplitWords | filterpype/data_filter.py:2290-2297 | data that is not a string is an error, an empty separator is a ValueError; each word goes to main in a new data packet, at least one for a string separator |
| PlainStages.SplitWordsRejoin | filterpype/data_filter.py:2290-2297 | the words sent, joined by the separator, give back the data |
| PlainStages.LineLen | filterpype/data_filter.py:2308-2315 | the length up to, not including, the first line break |
| PlainStages.Lines | filterpype/data_filter.py:2308-2315 | `splitlines()`: no line contains a line break |
| PlainStages.LinesRejoin | filterpype/data_filter.py:2308-2315 | for text with `\n` line ends and no final break, the lines joined by `\n` give it back |
| PlainStages.NonBlank | filterpype/data_filter.py:2308-2315 | the kept lines are exactly the lines holding something besides whitespace, in order |
| PlainStages.SplitLines | filterpype/data_filter.py:2308-2315 | non-string data is an AttributeError; otherwise each non-blank line goes to main, in order, in a clone of the packet |
| PlainStages.SplitLinesSendsLines | filterpype/data_filter.py:2308-2315 | every packet sent carries one non-blank line of the data, without a line break, and is a message exactly when the input is |
| PlainStages.SwapPairs | filterpype/data_filter.py:2041-2062 | the length is kept and the first two chars trade places |
| PlainStages.SwapPairsAppend | filterpype/data_filter.py:2041-2062 | swapping works pair by pair: an even-length front is swapped on its own |
| PlainStages.SwapPairsTwice | filterpype/data_filter.py:2041-2062 | swapping the pairs twice gives back the text |
| PlainStages.SwapTwoBytes | filterpype/data_filter.py:2041-2062 | non-string data is a TypeError; otherwise one packet goes to main with each pair of chars swapped |
| PlainStages.SwapTwoBytesTwice | filterpype/data_filter.py:2041-2062 | SwapTwoBytes applied twice gives back the data |
| PlainStages.Reverse | filterpype/data_filter.py:2071-2078 | char i of the result is char length-1-i of the input |
| PlainStages.ReverseString | filterpype/data_filter.py:2071-2078 | non-string data is a TypeError; otherwise one packet goes to main with the data reversed |
| PlainStages.ReverseStringTwice | filterpype/data_filter.py:2071-2078 | reversing twice gives back the data |
| PlainStages.Wrap | filterpype/data_filter.py:2652-2660 | succeeds exactly when prefix, data and suffix are strings (TypeError otherwise), sending one packet to main whose data is the prefix, then the data, then the suffix |
| PlainStages.Repeat | filterpype/data_filter.py:1519-1531 | `n * chr(c)` has max(n, 0) copies of c |
| PlainStages.PassNonZero | filterpype/data_filter.py:1519-1531 | a missing attribute is an AttributeError; the packet goes on unchanged exactly when the string does not start with check_byte_count 0x00 chars nor with as many 0xFF chars |
| PlainStages.PassNonZeroShortPasses | filterpype/data_filter.py:1519-1531 | a string shorter than a positive count always passes; with a count of zero or less nothing passes |
| PlainStages.PassNonZeroMixedPasses | filterpype/data_filter.py:1519-1531 | a string whose first check_byte_count chars hold both a non-0x00 and a non-0xFF char passes |
| PlainStages.CountLoops | filterpype/data_filter.py:1024-1030 | the loop count is set to 1 when absent, raised by one when numeric, and a TypeError otherwise |
| PlainStages.Loops | filterpype/data_filter.py:1024-1030 | after k passes a packet carries the count k, with its other attributes unchanged |
| PlainStages.LoopsCount | filterpype/data_filter.py:1024-1030 | one more pass through CountLoops takes the count from k to k+1 |
| PlainStages.SendMessageAsWritten | filterpype/data_filter.py:2113-2117 | as written, every call raises TypeError |
| PlainStages.SendMessage | filterpype/data_filter.py:2104-2117 | an empty message is a MessageError; otherwise a bottle for target_filter_name carrying the values goes to the branch, then the packet to main |
| PlainStages.SendMessageDelivers | filterpype/data_filter.py:2113-2117 | a message without a leading ':' always goes out as a message bottle, where the code as written sends nothing |
| BufferStages.BlocksSized | filterpype/data_filter.py:216-247 | every block Batch cuts has exactly size chars |
| BufferStages.LeftoverShort | filterpype/data_filter.py:216-247 | what Batch holds back is shorter than one block |
| BufferStages.BlocksRejoin | filterpype/data_filter.py:216-247 | the blocks followed by the leftover are the input, with nothing lost or repeated |
| BufferStages.BlocksStep | filterpype/data_filter.py:230-240 | cutting one block off the front at position k leaves the blocks and leftover of the rest |
| BufferStages.BlocksAdvance | filterpype/data_filter.py:230-240 | one turn of the block loop keeps the invariant that the blocks sent plus those still to come are all the blocks |
| BufferStages.BlockSends | filterpype/data_filter.py:230-240 | one send per block, in order, each a clone of the packet holding that block |
| BufferStages.BlockSendsAppend | filterpype/data_filter.py:230-240 | one block more adds exactly its send at the end |
| BufferStages.BlockSendsCarry | filterpype/data_filter.py:230-240 | each block packet carries exactly its block, size chars long |
| BufferStages.ValidateSize | filterpype/data_filter.py:261-275 | a numeric size is valid exactly when at least 1; a text size exactly when empty, unset or a `%PARAM` placeholder; failures are FilterAttributeError or TypeError |
| BufferStages.Batch.constructor | filterpype/data_filter.py:254-259 | a new Batch holds one empty input, an empty last packet, and has received and sent nothing |
| BufferStages.Batch.FilterData | filterpype/data_filter.py:211-247 | non-string data is a TypeError; short input is held; with a valid size the blocks of held plus new data are sent and only the leftover is held; a size of zero or less is a FilterAttributeError once a block is due; the invariant that sent plus held equals received is kept |
| BufferStages.Batch.Accept | filterpype/data_filter.py:211-214 | the new data joins the held inputs, and the char count stays their total length |
| BufferStages.Batch.SplitBlocks | filterpype/data_filter.py:216-247 | the loop sends the blocks of the joined inputs and holds the leftover; a size of zero or less is a FilterAttributeError |
| BufferStages.Batch.InitInput | filterpype/data_filter.py:201-208 | afterwards only the given data is held, with its length as the count |
| BufferStages.Batch.FlushBuffer | filterpype/data_filter.py:249-252 | the flush sends nothing exactly when nothing is held, and otherwise one clone of the last packet holding all that is held |
| BufferStages.BatchAccounts | filterpype/data_filter.py:216-252 | over any run of packets, the blocks sent followed by what a flush sends are all the data received, every block is size chars and the flushed rest is shorter |
| BufferStages.DistillSends | filterpype/data_filter.py:1230-1260 | the header goes to the branch, and the rest to main only when non-empty |
| BufferStages.DistillSplits | filterpype/data_filter.py:1230-1260 | the header and the remainder sent are the two halves of the data split at header_size, and the remainder carries the header under keep_header_key |
| BufferStages.DistillHeader.constructor | filterpype/data_filter.py:1262-1266 | a new DistillHeader holds nothing and has not yet split off a header |
| BufferStages.DistillHeader.FilterData | filterpype/data_filter.py:1230-1260 | after the header is done packets pass to main; non-string data is a TypeError; with `once`, data shorter than the header is held; otherwise the held data plus the new data is split by DistillSends |
| BufferStages.SumLengths | filterpype/data_filter.py:1122-1129 | the chunk lengths add up to the length of the joined chunks |
| BufferStages.ChunkCut | filterpype/data_filter.py:1131-1149 | a chunk and offset position splits the joined chunks into the chunks before it and those from it on |
| BufferStages.PrefixStep | filterpype/data_filter.py:1131-1149 | a prefix one chunk longer joins to the shorter prefix plus that chunk |
| BufferStages.PrefixShorter | filterpype/data_filter.py:1131-1149 | a prefix of the chunks joins to no more than all of them |
| BufferStages.DataBuffer.constructor | filterpype/data_filter.py:1115-1121 | a new buffer holds no chunks |
| BufferStages.DataBuffer.BufferSize | filterpype/data_filter.py:1122-1129 | the buffer size is the length of the buffered data |
| BufferStages.DataBuffer.ChunkIndex | filterpype/data_filter.py:1131-1149 | positions at or before the start give (0, 0); a position past the end gives None; any other gives the chunk and offset where that position falls |
| BufferStages.DataBuffer.AddData | filterpype/data_filter.py:1151-1152 | the data is appended as a chunk, so the buffered data grows by exactly it |
| BufferStages.DataBuffer.GetData | filterpype/data_filter.py:1154-1175 | no index reads the whole buffer, a negative one nothing, any other the first dataIndex chars |
| BufferStages.DataBuffer.TruncateData | filterpype/data_filter.py:1177-1195 | an index of zero or less changes nothing; any other drops exactly the first dataIndex chars of the buffered data |
| BufferStages.Join.constructor | filterpype/data_filter.py:1502-1503 | a new Join holds its join string and no parts |
| BufferStages.Join.FilterData | filterpype/data_filter.py:1486-1494 | string data is kept as a part and nothing is sent; any other packet sends the parts joined by the join string and clears them |
| BufferStages.Join.FlushBuffer | filterpype/data_filter.py:1496-1500 | the flush sends nothing exactly when no part is held, and otherwise one packet with the parts joined |
| BufferStages.JoinedSplitsBack | filterpype/data_filter.py:1486-1500 | with a one-char join string that no part contains, the joined data splits back into the parts |
| BufferStages.Peek.constructor | filterpype/data_filter.py:1567-1569 | a new Peek holds no packet |
| BufferStages.Peek.FilterData | filterpype/data_filter.py:1559-1565 | data that cannot be sliced is a TypeError; otherwise the packet held back, if any, goes to main with `peek` set to the head of the new packet's data, and the new packet is held instead |
| BufferStages.Peek.CloseFilter | filterpype/data_filter.py:1554-1557 | with no packet received it is an AttributeError; otherwise the last packet goes to main with an empty `peek` and its other attributes kept |
| BufferStages.PeekSees | filterpype/data_filter.py:1559-1565 | the packet Peek sends differs from the held one only in `peek`, which holds the first peek_ahead chars of the next packet |
| BufferStages.CollectData.Need | filterpype/data_filter.py:973-978 | the size of a collection is collection_size and at least one |
| BufferStages.CollectData.constructor | filterpype/data_filter.py:980-981 | a new CollectData has collected, seen and sent nothing |
| BufferStages.CollectData.FilterData | filterpype/data_filter.py:973-978 | each packet goes to main; when the collection reaches collection_size, a clone holding it goes to the branch first and the collection restarts; the collections sent plus the one held are all the data seen |
| BufferStages.CollectionSent | filterpype/data_filter.py:973-978 | the branch packet carries the collection as its data |
| StateStages.SeqPacket.constructor | filterpype/data_filter.py:2209-2210 | a new SeqPacket's counter starts at 0 and has given no number |
| StateStages.SeqPacket.ResetCounter | filterpype/data_filter.py:2212-2213 | the counter is set to the reset value, and numbering starts again from it |
| StateStages.SeqPacket.FilterData | filterpype/data_filter.py:2184-2207 | a packet without a number gets the counter's value in its sequence field and the counter goes up by one; a numbered packet passes as it is; the numbers given stay consecutive from the reset value |
| StateStages.NumberCarried | filterpype/data_filter.py:2184-2207 | a packet given the number n counts as numbered exactly when n is not negative |
| StateStages.TotalLength | filterpype/data_filter.py:993-1002 | the total of the data lengths of the packets, built up packet by packet |
| StateStages.TotalLengthAppend | filterpype/data_filter.py:993-1002 | one packet more adds exactly its data length |
| StateStages.CountBytes.constructor | filterpype/data_filter.py:1004-1006 | zero_inputs: nothing counted, no packet seen |
| StateStages.CountBytes.FilterData | filterpype/data_filter.py:993-1002 | the byte count grows by the packet's data length and the packet count by one, keeping both equal to the totals over all packets seen; the packet passes to main unchanged |
| StateStages.CountPackets.constructor | filterpype/data_filter.py:1047-1048 | zero_inputs: nothing counted, no packet seen |
| StateStages.CountPackets.FilterData | filterpype/data_filter.py:1041-1045 | the count grows by one, keeping it equal to the number of packets seen; the packet passes to main unchanged |
| StateStages.KeptIsNewest | filterpype/data_filter.py:2243-2246 | what a Sink keeps is the newest of what it saved, as many as max_results allows, in order |
| StateStages.KeptStep | filterpype/data_filter.py:2243-2246 | one save more appends, then drops the oldest when over a non-zero limit |
| StateStages.Sink.constructor | filterpype/data_filter.py:2252-2253 | a new Sink holds and has saved nothing |
| StateStages.Sink.SaveData | filterpype/data_filter.py:2243-2246 | the packet is saved, and what is held stays the newest max_results saved |
| StateStages.Sink.SendOn | filterpype/data_filter.py:2262-2265 | the packet is sent as asked; a message bottle going to main is saved first exactly when messages are captured |
| StateStages.Sink.FilterData | filterpype/data_filter.py:2248-2250 | the packet is saved, and saved again on the way out when it is a captured message, then sent to main |
| StateStages.Sink.OpenMessageBottle | filterpype/data_filter.py:2255-2260 | the bottle is saved exactly when messages are captured |
| StateStages.Sink.AllData | filterpype/data_filter.py:2234-2240 | all_data lists the data of the packets held, one for one, in order |
| StateStages.BranchOnceTriggered.constructor | filterpype/data_filter.py:371-372 | a new BranchOnceTriggered is not yet triggered |
| StateStages.BranchOnceTriggered.FilterData | filterpype/data_filter.py:374-383 | once triggered it stays triggered and sends everything to the branch; before then a packet without the watched attribute is an AttributeError, and a packet whose attribute equals the watched value triggers it and goes to the branch, any other to main |
| StateStages.UntilSends | filterpype/data_filter.py:155-170 | once the value is found at k: what comes before goes to the branch when non-empty, what follows to main when non-empty |
| StateStages.UntilSplits | filterpype/data_filter.py:155-170 | the branch gets the stored data before the first occurrence of the value and main the data from it on, starting with the value; together they are the stored data |
| StateStages.BranchUntilValue.constructor | filterpype/data_filter.py:151-153 | a new BranchUntilValue has seen no value and stores nothing |
| StateStages.BranchUntilValue.FilterData | filterpype/data_filter.py:155-170 | after the value is seen packets pass to main; non-string data is a TypeError; otherwise the data is stored and, exactly when the value occurs in the store, it is split there by UntilSends |
| StateStages.Detect | filterpype/data_filter.py:35-55 | its only error is AttributeError and it never forgets a stored attribute |
| StateStages.DetectChanged | filterpype/data_filter.py:35-55 | once every attribute is stored and present in the packet, the flag is set exactly when some attribute differs from its stored value |
| StateStages.DetectKeepsInitial | filterpype/data_filter.py:35-55 | with compare_initial_value, a stored value is never replaced |
| StateStages.AttributeChangeDetection.constructor | filterpype/data_filter.py:23-33 | a new stage holds its attribute list, flag name and mode, and stores the values it was given |
| StateStages.AttributeChangeDetection.FilterData | filterpype/data_filter.py:35-55 | the stored values and the outcome are Detect's; on success the packet goes to main with the flag set to whether something changed |
| StateStages.InitialValueChangeDetection | filterpype/data_filter.py:64-76 | the packet goes to main flagged as changed exactly when it lacks or differs in one of the listed attributes |
| StateStages.ResetBottle | filterpype/data_fltr_base.py:1506-1523 | the bottle is a message carrying `reset`, the parameter name and the new value |
| StateStages.ResetDelivers | filterpype/data_filter.py:2133-2169 | opening the bottle at its target sets the parameter to the new value and leaves the other attributes alone |
| StateStages.Reset.constructor | filterpype/data_filter.py:2120-2131 | a new Reset holds its target, parameter name and value |
| StateStages.Reset.FilterData | filterpype/data_filter.py:2133-2169 | with no value the packet's param_name attribute is sent (AttributeError when absent); a value naming a packet attribute takes that attribute's value; the reset bottle goes on, then the packet |
| Tanks.RealItems | filterpype/data_filter.py:2432-2442 | the packets among the heap entries, None spacers skipped, never more than the entries |
| Tanks.RealItemsAppend | filterpype/data_filter.py:2432-2442 | the packets of two runs of entries are those of the first followed by those of the second |
| Tanks.RealItemsRemove | filterpype/data_filter.py:2547-2557 | removing an entry removes one packet exactly when that entry held one |
| Tanks.PopOrderKeepsPackets | filterpype/data_filter.py:2432-2442 | listing the entries in pop order keeps every packet: none is lost or made up |
| Tanks.PriorityOf | filterpype/data_filter.py:2559-2576 | a packet has its own priority only when priority_field_name names one of its attributes |
| Tanks.PacketEntry | filterpype/data_filter.py:2559-2576 | push's entry holds the packet, posted at the current stamp, at the counter's priority when the packet has none |
| Tanks.Excess | filterpype/data_filter.py:2480-2518 | the number of pops that brings n entries down to tank_size: none for an unlimited tank or one within size, otherwise exactly the surplus |
| Tanks.TankQueue.Spare | filterpype/data_filter.py:2444-2466 | an unlimited tank has spare capacity sys.maxint; a sized tank between calls never has a negative spare capacity |
| Tanks.TankQueue.constructor | filterpype/data_filter.py:2524-2545 | a new tank holds no packets and has sent nothing; a sized tank is padded to its size with None spacers |
| Tanks.TankQueue.Pop | filterpype/data_filter.py:2547-2557 | an empty queue gives None; otherwise the least entry's item is returned and that entry removed, and packets_held still counts the packets held |
| Tanks.TankQueue.Push | filterpype/data_filter.py:2559-2576 | a packet goes in as PacketEntry and None as a spacer at None's priority; packets_held still counts the packets held |
| Tanks.TankQueue.Drain | filterpype/data_filter.py:2502-2518 | the loop pops exactly Excess entries in pop order, sends on the packets among them in that order, keeps the rest in the same pop order, and leaves a sized tank within size |
| Tanks.TankQueue.SendOne | filterpype/data_filter.py:2502-2518 | one round pops the first entry in pop order and sends it on when it is a packet |
| Tanks.TankQueue.Deliver | filterpype/data_filter.py:2596-2601 | a popped packet goes on down main; a shutting-down TankBranch first shows its contents down the branch |
| Tanks.TankQueue.SortedPackets | filterpype/data_filter.py:2432-2442 | sorted_packets lists the packets held in the order they would be popped |
| Tanks.TankQueue.SetTankSize | filterpype/data_filter.py:2480-2494 | shrinking sends on the excess in pop order and keeps the rest; growing pads with None spacers up to the new size; an unlimited size changes nothing in the queue |
| Tanks.TankQueue.PadIfBounded | filterpype/data_filter.py:2489-2494 | an unlimited or already full tank is left alone; a sized one is padded to exactly its size with None spacers after the entries it had |
| Tanks.TankQueue.Pad | filterpype/data_filter.py:2489-2494 | the padding loop appends None spacers until the tank is full, keeping the entries it had in front |
| Tanks.TankQueue.FilterData | filterpype/data_filter.py:2502-2518 | the packet is pushed, then exactly the excess leaves in pop order and is sent on; an unlimited tank sends nothing and grows by one; a TankBranch not shutting down then shows its contents down the branch |
| Tanks.TankQueue.PushAndDrain | filterpype/data_filter.py:2502-2518 | the body of filter_data: push, then drain to size, with the same outcome as FilterData before its hook |
| Tanks.TankQueue.AfterFilterData | filterpype/data_filter.py:2592-2594 | a TankBranch shows the packets held, in pop order, down the branch; a TankQueue does nothing |
| Tanks.TankQueue.ShowBranch | filterpype/data_filter.py:2592-2594 | one branch packet holds the packets held, in pop order |
| Tanks.TankQueue.FlushBuffer | filterpype/data_filter.py:2520-2522 | setting tank_size to 0 sends on every packet held, in pop order, and leaves the tank empty with nothing held |
| Tanks.TankQueue.ZeroInputs | filterpype/data_filter.py:2578-2579 | the queue is emptied and the priority counter kept |
| Tanks.FeedTarget | filterpype/data_filter.py:2355-2372 | a tank feed succeeds exactly when the next stage exists and is a tank_queue; otherwise FilterRoutingError |
| Tanks.FeedTargetAsWritten | filterpype/data_filter.py:2368-2372 | as written it succeeds exactly when FeedTarget does, and fails with NameError |
| Tanks.FeedMisroutedRaisesNameError | filterpype/data_filter.py:2368-2372 | a tank feed followed by a sink raises NameError where FilterRoutingError was intended |
| Tanks.FeedPacket | filterpype/data_filter.py:2352-2353 | the packet is pushed straight onto the destination tank, with nothing sent |
| Pipelines.FirstOp | filterpype/pipeline.py:230-259 | the first position from i on where `>>>` or `^^^` starts, with none before it; None when there is none |
| Pipelines.TrimRightSpaces | filterpype/pipeline.py:230-259 | the text with its trailing blanks, and only those, removed |
| Pipelines.TrimLeftSpaces | filterpype/pipeline.py:230-259 | the text with its leading blanks, and only those, removed |
| Pipelines.SplitConnection | filterpype/pipeline.py:207-259 | splitting a connection at its join fails with ValueError exactly when it has no join or more than one; the join is `>>>` or `^^^` and neither side holds one |
| Pipelines.JoinText | filterpype/pipeline.py:230-259 | the three chars found at a join are one of the two join texts |
| Pipelines.NoOpBefore | filterpype/pipeline.py:230-259 | no part of the text before the first join holds a join |
| Pipelines.FirstPiece | filterpype/pipeline.py:237-241 | the text before the first join, which is the from-side of a connection that splits |
| Pipelines.FirstOpAt | filterpype/pipeline.py:230-259 | a join at k with none between i and k is the first one found from i |
| Pipelines.SplitConnectionOf | filterpype/lex_yacc4.py:125-148 | a connection written as the route parser writes it, two names joined by ` >>> ` or ` ^^^ `, splits back into those names and join |
| Pipelines.KeyOf | filterpype/pipeline.py:654-667 | the key a stage is stored under holds no `:` |
| Pipelines.KeyIsShortName | filterpype/pipeline.py:387-413 | the key get_filter looks up is the short name _parse_route files a filter's values under |
| Pipelines.Lookup | filterpype/pipeline.py:654-667 | an empty name is a FilterNameError; otherwise it finds exactly the stage stored under the name's key, and KeyError when there is none |
| Pipelines.LookupAsWritten | filterpype/pipeline.py:654-667 | as written it agrees with Lookup on every non-empty name |
| Pipelines.EmptyNameLookup | filterpype/pipeline.py:664 | an empty name raises AttributeError as written, where FilterNameError was intended |
| Pipelines.LookupIgnoresValues | filterpype/pipeline.py:654-667 | a name with values such as `batch:66` finds the same stage as its bare name |
| Pipelines.ConnectPair | filterpype/pipeline.py:207-228 | a `None` to-side changes nothing; otherwise it succeeds exactly when both names are non-empty and stored, fails with FilterNameError or KeyError as the lookup does, keeps the set of stages and changes only the from-stage: its branch for `^^^` from a hidden branch route, its next stage otherwise |
| Pipelines.ConnectAll | filterpype/pipeline.py:230-259 | connecting never adds or drops a stage |
| Pipelines.Wire | filterpype/pipeline.py:230-259 | no connections is an IndexError; on success the first stage is the one before the first join, the last connection goes to None and the last stage is its from-side, and both are stored |
| Pipelines.WireTwo | filterpype/pipeline.py:230-259 | the route `a >>> b` wires a as first stage, b as last and a's next stage to b, and changes nothing else |
| Pipelines.WireLinks | filterpype/pipeline.py:230-259 | the same for any two connections that split as `a >>> b` and `b >>> None` |
| Pipelines.ConnectLinks | filterpype/pipeline.py:230-259 | those two connections, made in order, set a's next stage to b |
| Pipelines.ConnectOne | filterpype/pipeline.py:230-259 | a single connection that splits and is made gives that connection's result |
| Pipelines.ConnectSecond | filterpype/pipeline.py:230-259 | a second connection that splits and is made follows on from the first |
| Pipelines.ConnectAllSnoc | filterpype/pipeline.py:230-259 | one more connection after a list: nothing more after an error, otherwise that connection is split and made |
| Pipelines.ConnectAllPrefix | filterpype/pipeline.py:230-259 | the same step for the prefixes of one list of connections |
| Pipelines.ConnectAllLast | filterpype/pipeline.py:230-259 | when every connection was made, the last one split |
| Pipelines.ConnectAllStops | filterpype/pipeline.py:230-259 | after a connection raises, the later ones are not made |
| Pipelines.ValidationSettled | filterpype/filter_factory.py:170-171 | the factory's validation, once passed, changes nothing about what create_filter returns |
| Pipelines.MakeAll | filterpype/pipeline.py:284-303 | making stages never drops one already made |
| Pipelines.MakeAllSnoc | filterpype/pipeline.py:284-303 | one more name after a list: nothing more after an error, otherwise its dictionary is looked up and its stage made and stored |
| Pipelines.MakeAllPrefix | filterpype/pipeline.py:284-303 | the same step for the prefixes of one list of names |
| Pipelines.MakeAllMade | filterpype/pipeline.py:284-303 | without a raise, every name of the order had a dictionary, the factory made a stage from it, the stages were appended in order and each is stored under its name |
| Pipelines.MakeAllStops | filterpype/pipeline.py:284-303 | after a name raises, no later stage is made |
| Pipelines.MadeUnderOwnName | filterpype/pipeline.py:269-282 | a stage made from a dictionary whose `_name` is the filter's name carries that name |
| Pipelines.RouteFrom | filterpype/pipeline.py:387-413 | the parser's error is passed on, no route is a TypeError; on success the connections and filter names are the compiled route's and the order and dictionaries those the filter names fold into, failing exactly when that fold does |
| Pipelines.RouteSpec | filterpype/pipeline.py:387-413 | the same with the route compiled by the route parser: the connections and names kept are the compiled ones, and a route with nothing in it is a TypeError |
| Pipelines.RouteNamesFoldStops | filterpype/pipeline.py:387-413 | after a filter name raises, the later ones are not added |
| Pipelines.Str | filterpype/pipeline.py:669-726 | `str()` of a string is the string and of any other value its repr; a list is written in brackets |
| Pipelines.Repr | filterpype/pipeline.py:690-694 | Python 2 repr: a string is quoted around its unchanged text, and a list or a list of packets is written in brackets |
| Pipelines.PacketData | filterpype/pipeline.py:669-726 | a pumped None stays None and any other input becomes its `str()` |
| Pipelines.Inputs | filterpype/pipeline.py:669-726 | a list is pumped item by item and any other value as a list of itself |
| Pipelines.SentData | filterpype/pipeline.py:669-726 | one packet per input, in order, carrying PacketData of that input |
| Pipelines.Returned | filterpype/pipeline.py:669-726 | a single result comes back alone, any other number of results as a list |
| Pipelines.PumpKept | filterpype/pipeline.py:669-726 | the temporary sink keeps everything up to its limit, and beyond that the newest that many |
| Pipelines.PumpOneThrough | filterpype/pipeline.py:669-726 | through a pipeline that passes data unchanged, one string comes back as itself and any other single value as its `str()` |
| Pipelines.PumpListThrough | filterpype/pipeline.py:669-726 | through such a pipeline, a list of other than one value comes back as the list of their data, the newest up to the sink's limit |
| Pipelines.ConfigLines | filterpype/pipeline.py:482-605 | more or fewer than one line are the configuration itself |
| Pipelines.Build | filterpype/pipeline.py:74-187 | a pipeline built split its configuration at `[--route--]` with a non-blank route, parsed its sections finding `[--main--]`, an ftype and a doc, and kept the compiled route |
| Pipelines.BuildFrom | filterpype/pipeline.py:74-187 | the build keeps the configuration's split parts |
| Pipelines.BuildConfigFails | filterpype/pipeline.py:305-385 | sections that fail to parse fail the build with the same error |
| Pipelines.BuildRoute | filterpype/pipeline.py:387-413 | once the sections parse, the build keeps what the route's compilation gives |
| Pipelines.DedupAppend | filterpype/pipeline.py:387-413 | putting the front of a list in first-seen order beforehand does not change the first-seen order of the whole |
| Pipelines.BuildOrder | filterpype/pipeline.py:74-187 | a new pipeline's filter order is the filter sections then the route's filter names, each once, in first-seen order |
| Pipelines.MergeEntries | filterpype/pipeline.py:607-636 | the loop merges one filter's entries exactly as the entry-by-entry fold does, stopping at the first that raises |
| Pipelines.MergeAllNext | filterpype/pipeline.py:607-636 | one more entry after a prefix that raised nothing is merged with MergeEntry |
| Pipelines.MergeAllStops | filterpype/pipeline.py:607-636 | after an entry raises, no later entry is merged |
| Pipelines.SectionsFoldStops | filterpype/pipeline.py:305-385 | after a section raises, no later section is parsed |
| Pipelines.Pipeline.constructor | filterpype/pipeline.py:74-187 | the attributes set before the configuration is read: no settings, no stages, no results, no ends |
| Pipelines.Pipeline.Initialise | filterpype/pipeline.py:74-187 | a configuration that does not split fails with that error; otherwise the settings kept are those of the build, or its error |
| Pipelines.Pipeline.ParseSettings | filterpype/pipeline.py:74-187 | with the configuration split, the settings kept are those of parsing the sections and the route, or their error |
| Pipelines.Pipeline.ReadConfig | filterpype/pipeline.py:482-605 | the configuration and route kept are the split of the configuration's lines; on an error nothing changes |
| Pipelines.Pipeline.UpdateFilterDict | filterpype/pipeline.py:607-636 | the filter's dictionary becomes the merge of its entries into the existing one, or a new `{_name: name}`, with the merge's error |
| Pipelines.Pipeline.ParseSection | filterpype/pipeline.py:305-385 | one section changes the settings exactly as the section step does, or raises its error |
| Pipelines.Pipeline.ParseConfig | filterpype/pipeline.py:305-385 | the sections change the settings and doc exactly as the section fold does, or raise its error |
| Pipelines.Pipeline.AddRouteName | filterpype/pipeline.py:387-413 | one route filter name changes the order and dictionaries as the route-name step does, or raises its error |
| Pipelines.Pipeline.AddRouteNames | filterpype/pipeline.py:387-413 | the loop over the route's filter names gives the fold's order and dictionaries, stopping at the first error |
| Pipelines.Pipeline.ParseRoute | filterpype/pipeline.py:387-413 | the connections, order and dictionaries kept are RouteFrom's, or its error |
| Pipelines.Pipeline.MakeFilter | filterpype/pipeline.py:269-282 | the stage made is the factory's; on success it is stored under its own name and appended to the filter list, on an error nothing changes; the factory only records its validation |
| Pipelines.Pipeline.MakeFilters | filterpype/pipeline.py:284-303 | the stages and filter list are MakeAll's over the filter order, with its error |
| Pipelines.Pipeline.ConnectFilterPair | filterpype/pipeline.py:207-228 | the stages change exactly as ConnectPair says, and not at all on an error |
| Pipelines.Pipeline.ConnectEach | filterpype/pipeline.py:230-259 | the loop leaves the stages and error that ConnectAll gives for the connections |
| Pipelines.Pipeline.ConnectFilters | filterpype/pipeline.py:230-259 | the first and last stages and the links are Wire's, with its error |
| Pipelines.Pipeline.SetNextFilter | filterpype/pipeline.py:262-267 | the pipeline's next filter is set, and so is the next stage of its last stage when it has one; nothing else changes |
| Pipelines.Pipeline.CloseTarget | filterpype/pipeline.py:195-198 | closing targets the first stage, which is stored; without one it is an AttributeError |
| Pipelines.Pipeline.PumpData | filterpype/pipeline.py:669-726 | without a last stage it is an AttributeError; otherwise the inputs are sent as SentData, the sink keeps PumpKept of what comes out, Returned of that is the result, and the last stage is unhooked from the sink |
| Pipelines.NewPipeline | filterpype/pipeline.py:74-187 | without a factory it is a FilterAttributeError; otherwise a new pipeline holds exactly the settings of the build, or fails with its error |
| PipelineConfig.StrippedLines | filterpype/pipeline.py:482-605 | the non-blank lines, stripped: none is empty or starts with a blank, and none is added |
| PipelineConfig.IndexOf | filterpype/pipeline.py:482-605 | `xs.index(x)` is the first position holding x, and absent (ValueError) exactly when x is not in the list |
| PipelineConfig.SplitConfig | filterpype/pipeline.py:482-605 | a configuration that splits has no route heading before the route, and a non-blank route; its errors are ValueError or FilterRoutingError |
| PipelineConfig.CutAtRoute | filterpype/pipeline.py:482-605 | a cut leaves no route heading in the configuration part and a non-blank route; otherwise FilterRoutingError |
| PipelineConfig.JoinedLinesBlank | filterpype/pipeline.py:482-605 | joined non-blank stripped lines are blank exactly when there are none |
| PipelineConfig.CutAtRouteOk | filterpype/pipeline.py:482-605 | the cut succeeds exactly when some line other than the last is the route heading |
| PipelineConfig.CutAtRouteParts | filterpype/pipeline.py:482-605 | a successful cut loses nothing: the lines are the configuration lines, the first route heading and the non-empty route lines |
| PipelineConfig.MergeEntry | filterpype/pipeline.py:607-636 | the converted value is merged under its key, leaving other keys alone; it fails with FilterAttributeError exactly when the key holds a truthy value that differs from a truthy new one |
| PipelineConfig.MergeAllSnoc | filterpype/pipeline.py:607-636 | one more entry after a list: nothing more after an error, otherwise that entry is merged |
| PipelineConfig.StartDict | filterpype/pipeline.py:607-636 | a filter seen for the first time starts from `{_name: name}` |
| PipelineConfig.MergeEqualNoOp | filterpype/pipeline.py:607-636 | a value merged onto an equal one changes nothing |
| PipelineConfig.MergeFalsyIgnored | filterpype/pipeline.py:607-636 | a falsy new value never overwrites a truthy one |
| PipelineConfig.KeyValuesEitherOrder | filterpype/pipeline.py:607-636 | `batch` and `batch:66` in either order bind the same `_key_values` |
| PipelineConfig.KeyValuesConflict | filterpype/pipeline.py:607-636 | `batch:88` followed by `batch:99` raises FilterAttributeError |
| PipelineConfig.MainEntry | filterpype/pipeline.py:305-385 | an entry of `[--main--]` is refused with PipelineConfigError exactly when its name is not a known one, and never changes the filter order, dictionaries or main flag |
| PipelineConfig.MainEntries | filterpype/pipeline.py:305-385 | reading a main section never changes the filter order, dictionaries or main flag |
| PipelineConfig.KeyEntriesConcatenate | filterpype/pipeline.py:305-385 | `key*` entries add up: list values are concatenated and single values appended |
| PipelineConfig.MainEntriesKnown | filterpype/pipeline.py:305-385 | every entry of a main section read without error has a known name |
| PipelineConfig.UpdateDicts | filterpype/pipeline.py:607-636 | the named filter's dictionary becomes the merge of its entries into its start dictionary, and every other filter's is unchanged |
| PipelineConfig.EntryValues | filterpype/pipeline.py:305-385 | one dictionary entry per section entry |
| PipelineConfig.SectionStep | filterpype/pipeline.py:305-385 | `[--main--]` sets the main flag and leaves the order alone; any other section is a filter, added to the order once |
| PipelineConfig.JoinEmpty | filterpype/pipeline.py:305-385 | lines joined with a separator are empty exactly when there are none or one empty one |
| PipelineConfig.DocTextEmpty | filterpype/pipeline.py:305-385 | the docstring is empty exactly when the class has none and the descriptions give none |
| PipelineConfig.ParseConfigSpec | filterpype/pipeline.py:305-385 | a configuration that parses had a `[--main--]` section, an ftype and a non-empty doc, and its state is the fold over its sections |
| PipelineConfig.MainSectionRequired | filterpype/pipeline.py:305-385 | without a `[--main--]` section the main flag stays clear, so the configuration is refused |
| PipelineConfig.SectionsKnownKeys | filterpype/pipeline.py:305-385 | a configuration that parses has only known names in its main sections |
| PipelineConfig.SectionsOrder | filterpype/pipeline.py:305-385 | after the sections the filter order lists each filter section once, where it first appears |
| PipelineConfig.RouteNameStep | filterpype/pipeline.py:387-413 | one route name adds its short name to the order once |
| PipelineConfig.ShortNames | filterpype/pipeline.py:387-413 | one short name per route name, the text before any `:` |
| PipelineConfig.RouteNamesOrder | filterpype/pipeline.py:387-413 | the route adds its filters' short names once each, in first-seen order |
| PipelineConfig.RouteNamesFoldLast | filterpype/pipeline.py:387-413 | a fold that succeeds went through its front, then added the last short name once |
| PipelineConfig.DedupSnoc | filterpype/pipeline.py:387-413 | first-seen order of one more element adds it once |
| PipelineConfig.DedupDistinct | filterpype/pipeline.py:387-413 | a list without repeats is its own first-seen order |
| FilterFactories.ResolveEntries | filterpype/filter_factory.py:290-304 | building a class map fails with AttributeError exactly when some entry names a class its module does not define; otherwise every entry's type name is registered |
| FilterFactories.DemoEntriesAsWrittenFail | filterpype/filter_factory.py:295-301 | the demo class map as written cannot be built: reverse_string and copyfile_compress name classes their modules do not define |
| FilterFactories.DemoClassMapDefined | filterpype/filter_factory.py:290-304 | every class of the corrected demo map is defined, and it no longer lists reverse_string itself |
| FilterFactories.DemoKeepsReverseString | filterpype/filter_factory.py:98 | with the corrected map the demo factory still makes reverse_string, from the base map's ReverseString |
| FilterFactories.ProperPrefixLess | filterpype/filter_factory.py:140-159 | a proper prefix sorts before its extension |
| FilterFactories.PrefixBetween | filterpype/filter_factory.py:140-159 | every name sorted between a name and one of its extensions extends it too |
| FilterFactories.AdjacentSuffices | filterpype/filter_factory.py:140-159 | in sorted distinct type names some name is a proper prefix of another exactly when one is a prefix of the next, so checking neighbours suffices |
| FilterFactories.Enumerate | filterpype/filter_factory.py:153 | the keys of a dictionary as a list holding each key once |
| FilterFactories.SortedSameElements | filterpype/filter_factory.py:153 | sorting keeps exactly the same names |
| FilterFactories.UpdateAll | filterpype/filter_factory.py:131-138 | the loop leaves the first dictionary updated with every entry of the second |
| FilterFactories.UpdateStep | filterpype/filter_factory.py:131-138 | writing one more entry keeps the loop's invariant |
| FilterFactories.MapUnionPointwise | filterpype/filter_factory.py:131-138 | a dictionary that agrees entry by entry with `a.update(b)` is `a.update(b)` |
| FilterFactories.SortedDistinct | filterpype/filter_factory.py:153 | sorting names without repeats gives none |
| FilterFactories.NameParts | filterpype/filter_factory.py:209-210 | a name always has at least one `_`-separated part |
| FilterFactories.LongestRegistered | filterpype/filter_factory.py:209-222 | the registered type made of the most leading parts, at most j of them, with no longer candidate registered; None exactly when no candidate is registered |
| FilterFactories.InferredIsPrefix | filterpype/filter_factory.py:209-222 | a type read off a name is a prefix of that name |
| FilterFactories.ResolveParams | filterpype/filter_factory.py:185-234 | on success the parameters gain a string ftype and nothing else, and the attributes name the class to make |
| FilterFactories.FilterAttrs | filterpype/filter_factory.py:235-241 | the keyword arguments are the class entry, factory and pipeline with every parameter written over them |
| FilterFactories.Assemble | filterpype/filter_factory.py:241-279 | a filter made has a lower-case name, is made with FilterAttrs and of the class its attributes name |
| FilterFactories.CreateSpec | filterpype/filter_factory.py:161-279 | an unvalidated ambiguous factory raises FilterFactoryError; a filter made has a lower-case name, every parameter but ftype as an attribute, and the factory and pipeline set |
| FilterFactories.AttrsFromParams | filterpype/filter_factory.py:235-241 | the keyword arguments carry every parameter but the resolved ftype, and the factory unless one is given |
| FilterFactories.CreateSpecAsWritten | filterpype/filter_factory.py:179-238 | as written an ftype string always fails with NameError once validation passes; a parameter dictionary behaves as CreateSpec |
| FilterFactories.FtypeStringRequest | filterpype/filter_factory.py:179-238 | an ftype string naming a registered class fails as written, and as intended makes that class under that name |
| FilterFactories.ExplicitFtypeWins | filterpype/filter_factory.py:201-225 | an explicit ftype decides the class, whatever the filter is called |
| FilterFactories.NameInference | filterpype/filter_factory.py:203-225 | without an ftype the class is the one registered under the longest `_`-joined prefix of the name, FilterError when there is none |
| FilterFactories.PypesMisses | filterpype/filter_factory.py:189-234 | a `pype_X` filter, or a type found in neither map, raises FilterNameError when the pypes lack it |
| FilterFactories.PypeFilter | filterpype/filter_factory.py:189-199 | a `pype_X` filter is a PipelineForPypes with X's configuration, and its ftype becomes X |
| FilterFactories.UpperCaseNameRefused | filterpype/filter_factory.py:264-266 | a name with a capital letter is refused with FilterError once the class is found |
| FilterFactories.FilterFactory.constructor | filterpype/filter_factory.py:45-129 | a new factory holds the base class map, the pypes and the base essentials, and is not validated |
| FilterFactories.FilterFactory.ApplyClassMap | filterpype/filter_factory.py:131-138 | each class of the map is registered under its type name, replacing any earlier entry; nothing else changes |
| FilterFactories.FilterFactory.SortedKeys | filterpype/filter_factory.py:153 | the type names, sorted and each once |
| FilterFactories.FilterFactory.ValidateFilterDict | filterpype/filter_factory.py:140-159 | FilterFactoryError exactly when some type name is a proper prefix of another; success marks the factory validated |
| FilterFactories.FilterFactory.InferFtype | filterpype/filter_factory.py:209-222 | the loop finds LongestRegistered over the name's parts |
| FilterFactories.FilterFactory.CreateFilter | filterpype/filter_factory.py:161-279 | the filter made, or the error, is CreateSpec's; the factory becomes validated exactly when it was or its names are unambiguous |
| FilterFactories.NewFactory | filterpype/filter_factory.py:45-129 | an abstract factory class raises NotImplementedError; otherwise a new factory as the constructor makes it |
| FilterFactories.NewDemoFactory | filterpype/filter_factory.py:287-304 | the demo factory holds the base map with the corrected demo map over it, and still makes reverse_string from ReverseString |
| FilterFactories.ValueArgs | filterpype/filter_factory.py:254 | the keyword arguments a stage is called with are exactly the plain values among the filter attributes, unchanged |
| FilterFactories.RouteValuesKept | filterpype/filter_factory.py:235-254 | keyword arguments built from a parameter dictionary carry its `_key_values` unchanged |
| FilterFactories.RouteValuesPassed | filterpype/filter_factory.py:161-254 | a filter made from a parameter dictionary receives that dictionary's `_key_values` as its route values |
| FilterFactories.MakeAndBind | filterpype/data_fltr_base.py:685-695 | a stage made from a parameter dictionary holds its `_key_values`, and setting them binds them through KeyValuesRun to its class's bare keys; a failed creation makes nothing |
| FilterFactories.OneValueBinds | filterpype/data_fltr_base.py:768-799 | one route value is bound to the first key when that key is not yet an attribute, without error |
| FilterFactories.RouteValueBinds | filterpype/pipeline.py:405-411 | a single `:` value the route gives a filter ends up as the stage's attribute for the first key of its class |
| DemoStages.Fact | filterpype/data_fltr_demo.py:60-85 | the factorial the Factorial route computes is always at least 1 |
| DemoStages.FactorialInput | filterpype/data_fltr_demo.py:61-67 | a packet without x fails with AttributeError, an x not above 0 fails the assertion, and the stage goes on exactly when x is a positive number and any seq_num is a number |
| DemoStages.TimesInt | filterpype/data_fltr_demo.py:79 | pending times x is the product for numbers, x copies of a string, and TypeError for None |
| DemoStages.FactorialCalc | filterpype/data_fltr_demo.py:60-85 | input errors propagate; at x == 1 x_factorial becomes pending (1 on the first call) and recurse false, failing only when the result line cannot format a non-number; above 1 on the first call pending takes x |
| DemoStages.FactorialCalcAsWritten | filterpype/data_fltr_demo.py:69-73 | as written, x == 1 with no pending raises AttributeError, which the KeyError handler does not catch; every other input behaves as the corrected stage |
| DemoStages.XPacket | filterpype/ppln_demo.py:65-80 | the packet fed to the route carries x and neither pending nor x_factorial |
| DemoStages.FactorialOfOne | filterpype/data_fltr_demo.py:69-73 | a fresh packet with x == 1 fails as written, and the corrected stage gives x_factorial 1 |
| DemoStages.FactorialStep | filterpype/data_fltr_demo.py:60-85 | from the loop invariant (pending times the factorial of x is n!), a pass above 1 recurses with x one smaller and keeps the invariant, and a pass at 1 ends with x_factorial == n! |
| DemoStages.FactInvNext | filterpype/data_fltr_demo.py:78-83 | multiplying pending by x and lowering x by one keeps pending times the factorial of x at n! |
| DemoStages.FactorialCalcOn | filterpype/data_fltr_demo.py:77-85 | above 1 the stage multiplies pending by x (or starts it at x), lowers x by one and sets recurse true |
| DemoStages.FactorialCalcDone | filterpype/data_fltr_demo.py:69-74 | at x == 1 the stage copies pending (or 1) into x_factorial and sets recurse false |
| DemoStages.FactorialPass | filterpype/ppln_demo.py:75-78 | one pass through factorial_calc and branch_if:recurse: it loops back exactly when x was above 1, keeping the invariant with x one smaller, and otherwise leaves with x_factorial == n!; a non-positive start fails the assertion |
| DemoStages.Trampoline | filterpype/ppln_demo.py:65-80 | one packet through the size-0 tank loop leaves with x_factorial == n! for n >= 1, fails with AssertionError otherwise, and the tank is valid and empty-sized again afterwards |
| DemoStages.FactorialRoute | filterpype/ppln_demo.py:65-80 | every packet of a run reaches the sink in order with the factorial of its own x; any non-positive x stops the run with AssertionError |
| DemoStages.FactorialDemo | filterpype/ppln_demo.py:65-80 | a worked run of the route: 6, 3 and 4 give 720, 6 and 24 in that order |
| DemoStages.SumBits.constructor | filterpype/data_fltr_demo.py:135-137 | zero_inputs leaves both counters at zero with no chars and no string data counted |
| DemoStages.SumBits.FilterData | filterpype/data_fltr_demo.py:130-133 | bit_sum stays the bit count of every char iterated and byte_count the length of the string data seen; string data or a list of one-char strings goes on to main, with a list adding its bits but no length; any other data fails with TypeError and changes neither counter |
| DemoStages.ListChars | filterpype/data_fltr_demo.py:131 | the list `['a', 'b']` is iterated whole as the chars of "ab" |
| DemoStages.ListBits | filterpype/filter_utils.py:117-132 | bit_sum of "ab" is 6, so SumBits adds 6 for `['a', 'b']` |
| DemoStages.TotalBump | filterpype/data_fltr_demo.py:150 | adding one to one histogram slot adds one to the total of the histogram |
| DemoStages.CharRun | filterpype/data_fltr_demo.py:146-147 | `for char in data` feeds ord all the chars of a string, or the leading one-char strings of a list, and is whole exactly when nothing else follows; other data, or a non-empty packet list, stops at once |
| DemoStages.LeadingChars | filterpype/data_fltr_demo.py:146-147 | the leading items of a list that are one-char strings, their chars in order, and whether they are all the items |
| DemoStages.FirstWide | filterpype/data_fltr_demo.py:146-150 | the position of the first character past 0xFF, where the byte_dict lookup fails; every character before it is a byte |
| DemoStages.HistogramStep | filterpype/data_fltr_demo.py:150 | counting one more byte keeps each slot equal to how often that byte was seen |
| DemoStages.ByteTotalsStep | filterpype/data_fltr_demo.py:146-150 | one loop step keeps byte_count, byte_sum and byte_dict equal to the count, ordinal sum and histogram of the data seen |
| DemoStages.SumBytes.constructor | filterpype/data_fltr_demo.py:153-156 | zero_inputs gives zero counts and a zeroed 256-slot byte_dict, matching no data seen |
| DemoStages.SumBytes.Count | filterpype/data_fltr_demo.py:147-150 | counting one byte keeps the totals equal to the count, sum and histogram of the data seen, with that byte added |
| DemoStages.SumBytes.Tally | filterpype/data_fltr_demo.py:146-150 | the loop completes exactly when every char is a byte, with all of them counted; a wide char stops it after the bytes before it, with the count and sum already including it |
| DemoStages.SumBytes.FilterData | filterpype/data_fltr_demo.py:145-151 | the chars of string data, or of a list of one-char strings, are added to the totals and the packet passed on; a wide char fails with KeyError after the bytes before it were counted, and the count and sum already include it; an item that is not a one-char string, or data that cannot be iterated, fails with TypeError after the chars before it were counted |
| DemoStages.ZeroTotal | filterpype/data_fltr_demo.py:156 | a zeroed histogram has total 0 and matches the empty data |
| DemoStages.CountNibbles | filterpype/data_fltr_demo.py:170-171 | counting both nibbles of a byte keeps the 16-slot nibble_dict at 16 slots |
| DemoStages.NibbleTotalsStep | filterpype/data_fltr_demo.py:166-171 | one loop step keeps byte_count, nibble_sum and nibble_dict equal to the count, nibble sum and nibble histogram of the data seen |
| DemoStages.SumNibbles.constructor | filterpype/data_fltr_demo.py:174-177 | zero_inputs gives zero counts and a zeroed 16-slot nibble_dict, matching no data seen |
| DemoStages.SumNibbles.Count | filterpype/data_fltr_demo.py:167-171 | counting one byte keeps the totals equal to the count, nibble sum and nibble histogram of the data seen, with that byte added |
| DemoStages.SumNibbles.Tally | filterpype/data_fltr_demo.py:166-171 | the loop completes exactly when every char is a byte, with all of them counted; a wide char stops it after the bytes before it, with the count and nibble sum already including it |
| DemoStages.SumNibbles.FilterData | filterpype/data_fltr_demo.py:165-172 | the chars of string data, or of a list of one-char strings, are added to the nibble totals and the packet passed on; a wide char fails with KeyError after the bytes before it were counted; an item that is not a one-char string, or data that cannot be iterated, fails with TypeError after the chars before it were counted |
| DemoStages.SumByAppend | filterpype/data_fltr_demo.py:141 | a per-character sum over two pieces of data is the sum of the two sums |
| DemoStages.SumByShuffle | filterpype/data_fltr_demo.py:141 | a per-character sum does not change when the characters are rearranged |
| DemoStages.ByteSumShuffled | filterpype/data_fltr_demo.py:141 | however the bytes are shuffled, their sum does not change |
| DemoStages.NibbleSumShuffled | filterpype/data_fltr_demo.py:160-161 | however the bytes are shuffled, their nibble sum does not change |
| DemoStages.XorBits | filterpype/data_fltr_demo.py:190 | the bitwise exclusive-or of the low k bits stays below 2^k |
| DemoStages.XorBitsTwice | filterpype/data_fltr_demo.py:190 | applying the same exclusive-or mask twice gives back the original bits |
| DemoStages.XorChar | filterpype/data_fltr_demo.py:190 | chr(ord(c) ^ mask) succeeds exactly when the mask is not negative and agrees with c above the low byte, and then gives a byte |
| DemoStages.XorCharTwice | filterpype/data_fltr_demo.py:190 | switching the same bits twice with a mask below 256 gives the char back |
| DemoStages.XorCharWideMask | filterpype/data_fltr_demo.py:190 | a mask of 256 or more switches only chars above 255, and the byte it gives cannot be switched again |
| DemoStages.XorBitsZero | filterpype/data_fltr_demo.py:190 | XOR with zero keeps a number of k bits |
| DemoStages.WideCharSwitched | filterpype/data_fltr_demo.py:190 | `\u0141` switched with mask 0x100 gives `A` |
| DemoStages.Switched | filterpype/data_fltr_demo.py:187-191 | the switched data exists exactly when every char can be switched, and then each char is switched in place |
| DemoStages.SwitchedTwice | filterpype/data_fltr_demo.py:186-192 | switch_bits with the same mask below 256 twice restores the data; with a wider mask, non-empty switched data cannot be switched again |
| DemoStages.SwitchChars | filterpype/data_fltr_demo.py:187-190 | the loop gives the switched chars, or fails where Switched does |
| DemoStages.SwitchBits | filterpype/data_fltr_demo.py:186-192 | string data, or a list of one-char strings, is replaced by its switched chars as a string and sent to main; a char the mask cannot bring into 0..255 fails with ValueError, and an item that is not a one-char string, or data that cannot be iterated, with TypeError, whichever comes first |
| DemoStages.TempTextAfter | filterpype/data_fltr_demo.py:201-203 | the data becomes the old data followed by text_after, nothing else changes and it goes to main; non-string data fails with TypeError |
| DemoStages.TempTextBefore | filterpype/data_fltr_demo.py:212-214 | the data becomes text_before followed by the old data, nothing else changes and it goes to main; non-string data fails with TypeError |
| DemoStages.Chars | filterpype/data_fltr_demo.py:223 | the generator over the data yields each character as a one-character string, in order |
| DemoStages.JoinAppend | filterpype/data_fltr_demo.py:223 | joining one more piece adds the separator and that piece at the end |
| DemoStages.SpaceParts | filterpype/data_fltr_demo.py:223 | the join takes the chars of a string, or the items of a list exactly when all are strings; other data gives TypeError |
| DemoStages.TempSpace | filterpype/data_fltr_demo.py:222-224 | the parts of the data (for a string its chars) are joined by single spaces and sent to main; data that gives no parts fails with TypeError |
| DemoStages.TempSpaceSplits | filterpype/data_fltr_demo.py:222-224 | for non-empty data without spaces, splitting the result on spaces gives back the characters one by one |
| DemoStages.CapitalizeShape | filterpype/data_fltr_demo.py:39 | capitalize keeps the length, leaves no lower-case first letter and no upper-case later letter, and is idempotent |
| DemoStages.Capitalise | filterpype/data_fltr_demo.py:38-40 | string data is capitalised and sent to main with nothing else changed; other data fails with AttributeError |
| DemoStages.PyInt | filterpype/data_fltr_demo.py:103 | int() keeps an integer, reads a string exactly when its stripped text is signed digits and fails with ValueError otherwise, and fails with TypeError on None, lists and packets |
| DemoStages.IntStrRoundTrip | filterpype/data_fltr_demo.py:103 | int() reads back every integer that str() writes |
| DemoStages.MultiplyIfInteger | filterpype/data_fltr_demo.py:100-106 | an integer or integer text becomes the text of its multiple; text that int() refuses passes unchanged; data int() cannot take at all fails with TypeError |
| DemoStages.MultiplyReadsBack | filterpype/data_fltr_demo.py:100-106 | the data sent on reads back as the input number times multiply_by |

## Left out

- RouteResults.CompiledRoute: proved for routes of fewer than 999 filters. The compiler's labels are four digits wide, and past that the label sort no longer follows the route order.
- RouteResults.CompiledRoute: stated for any route text that lexes and parses to a given tree, rather than for literal route texts; lexing is described by the tokenizer's own contract.
- FilterUtils.ConvertInvertsStr: the `eval` and `float` paths of `convert_config_str` are not modelled. Floats are carried as their text (`VFloat`), and an expression string is kept as text.
- Tanks.PriorityReadable: priorities are required to be ints or None. Python 2 would also order floats and strings.
- Values.PyEq: floats compare by their text, so `size = 1.0` and `size = 1` in two sections are a conflict for PipelineConfig.MergeEntry, and likewise for StageKeys.KeyValuesFail and PlainStages.Compare, where Python finds `1.0 == 1`. Packets compare by their attributes, where Python compares them by identity, because DataPacket defines no `__eq__`.
- Values.PyLess: answers false between two floats, a float and a number, or two lists. Across kinds it follows Python 2's order (None, numbers, lists, strings).
- DemoStages.PyInt: `int()` of a float is a TypeError in the model, because floats are carried as text; Python truncates the float.
- DemoStages.TimesInt: a float `pending` is a TypeError in the model, for the same reason.
- BufferStages.Batch: the batch size and fork destination are fixed when the stage is made. Changing them afterwards by message bottle is not modelled.
- StageRouting.OpenMessageBottle: a 'reset' is modelled as a plain write to the attribute map. The source uses `setattr`, so a property setter runs: resetting `tank_size` on a TankQueue runs `_set_tank_size` (filterpype/data_filter.py:2480-2492), which sends packets on or pads the queue, and resetting a read-only property such as `shutting_down`, `refinery`, `data_length` or `spare_capacity` raises AttributeError. Neither effect is modelled. The `_coded_update_filters` walk that follows the write is left out too; it changes nothing, because `Pipeline.update_filters` is empty (filterpype/pipeline.py:728-730).
- BufferStages.Batch: non-string data fails with TypeError at once. The source first appends it and fails at the later join.
- BufferStages.DistillHeader: non-string data fails with TypeError at once, as for Batch.
- StageRouting.StageNode.ShutDown: closing each stage's coroutine inside `shut_down` is not modelled; the close cascade is modelled by the close events.
- Pipelines.Pipeline.SetNextFilter: propagates the next filter one level down only, so pipelines nested two deep are not covered.
- FilterFactories.CreateSpec: the in-place update of the caller's `param_dict['ftype']` is not modelled; the spec returned carries the ftype instead.
- Sections whose name starts with `[py_` (Python code embedded in a configuration) are not modelled.
- Pipelines.Pipeline.PumpData: its print and debug output is left out.
- FilterUtils.ReverseByteInvolution: stated through the byte value of each character (`ByteOf`), not on `bv8`.
- Tanks.TankQueue.SetTankSize: its ensures are stated through `Excess`, the number of packets the new size pushes out.
- PriorityQueues.PopsAscending: the priority queue's `time.time()` tie-break is replaced by an insertion stamp that always increases, so the model assumes every push has its own post time and pops equal priorities first in, first out. In the source, rapid pushes can share a time (filterpype/data_fltr_base.py:1551-1552). heapq then compares the packets themselves, and Python 2 orders two DataPackets arbitrarily. The model does not capture that order. The tie is the ordinary case for Tanks.TankQueue.Push: the tank's priority field is `seq_num` by default (filterpype/data_filter.py:2417, 2572), and every packet not yet numbered carries the default `seq_num` of -1 (filterpype/data_fltr_base.py:1400), so the tank's order among such packets is not promised by the source.
- The ConfigObj parser and the file reader are taken as parameters (parsed sections and a reader function).
- The PLY lexer and parser generator are replaced by a hand-written tokenizer and a recursive descent parser for the same grammar.
- Coroutine mechanics (`send`, `close`, generator state) are left out. A stage is a function or a method called once per packet.
- Stages that read or write files, sockets or the clock are not part of this model.
- DemoStages.Switched: a ghost function. `DemoStages.SwitchChars` computes it with a loop and is proved equal to it.
- Pipelines.Str: a float is written as the text it was read from. Python's `str()` of a float normalises that text (`1.50` gives `1.5`).
- Pipelines.Repr: a string is written between quotes without the backslash escapes Python adds for quotes, backslashes and unprintable chars. A packet is written without its memory address.
- Dictionaries are not a value kind of the model, so packet data that is a dict (and its `str()` in pump_data) is not modelled.
- Pipelines.Pipeline.constructor: a `config` argument replaces the class attribute `config` (pipeline.py:125-127), so later pipelines of the same class read it too. The model takes each pipeline's configuration as a parameter (Pipelines.NewPipeline) and keeps no state shared between instances.
- FilterFactories.CreateSpec: when the attributes carry a true `dynamic`, create_filter makes the stage from a `DynamicMetaClass` subclass of its class (filter_factory.py:246-252). The `__getattribute__` hook that metaclass installs is not modelled; the stage is made from its class either way.
- StageKeys.Stage.constructor: a `_key_values` argument that is not a list counts as no route values. The pipeline always passes a list (pipeline.py:411).
- FilterFactories.ValueArgs: the class entry and the factory and pipeline references are not values of the model, so the stage made does not hold them as attributes.

## Findings

| source | as written | input that shows it | evidently intended | confidence | as-written member | corrected member |
|---|---|---|---|---|---|---|
| filterpype/lex_yacc4.py:230 | `split('None ')[1]` cuts at the first `None ` in the parsed text, which is also found inside a filter name ending in None | the route `aNone >>> b` | remove only the leading `None` the grammar puts first | not executed | RouteCut.NoneSuffixRejected | RouteResults.CompiledRoute |
| filterpype/data_filter.py:2368-2372 | `FilterRoutingError` is named without its module, so the routing check raises NameError | a tank_feed followed by a sink rather than a tank_queue | raise FilterRoutingError | not executed | Tanks.FeedMisroutedRaisesNameError | Tanks.FeedTarget |
| filterpype/data_filter.py:355-356 | the unknown-comparison branch names `FilterLogicError` and `comparison` without `dfb.` and `self.` | a branch_if whose comparison is `between` | raise FilterLogicError naming the comparison | not executed | PlainStages.UnknownComparisonIsNameError | PlainStages.Compare |
| filterpype/data_fltr_base.py:1175 | the pass-on after opening at a matching type calls `send_on` with an `optional` argument it does not take | a multi-use bottle addressed to a stage type | pass the bottle on down the branch and main | not executed | StageRouting.MultiUseBottleFails | StageRouting.MessageActions |
| filterpype/data_fltr_demo.py:70-73 | reading a missing `pending` raises AttributeError, but the handler catches KeyError | DataPacket(x=1), the first and only pass | x_factorial becomes 1 | not executed | DemoStages.FactorialOfOne | DemoStages.FactorialCalc |
| filterpype/data_filter.py:2113-2117 | `MessageBottle(self.message, value=...)` omits MessageBottle's required `message` argument (data_fltr_base.py:1506), so the call raises TypeError and no bottle is made | a send_message stage with message `size:4` | a bottle carrying the message and its values | not executed | PlainStages.SendMessageAsWritten | PlainStages.SendMessageDelivers |
| filterpype/pipeline.py:664 | the empty-name branch names `df.FilterNameError`, which the data_filter module does not define | get_filter('') | raise FilterNameError | not executed | Pipelines.EmptyNameLookup | Pipelines.Lookup |
| filterpype/filter_factory.py:179-238 | the string form skips the code that binds `filter_attrs`, so its first use fails | create_filter('capitalise') | look the ftype up in the class map | not executed | FilterFactories.FtypeStringRequest | FilterFactories.CreateSpec |
| filterpype/filter_factory.py:295-301 | the class map names `dfd.ReverseString` and `ppln.CopyFileCompression`, which those modules do not define | making a DemoFilterFactory | a class map of defined classes only | not executed | FilterFactories.DemoEntriesAsWrittenFail | FilterFactories.DemoClassMapDefined |
