# birdparse in Dafny

A model of birdparse, a Go package that parses the text output of the BIRD routing daemon into records.
It covers both commands the package parses:

- **`show route all`.**
  - `ParseRoutes` is a line-driven state machine. It keeps:
    - the route being built;
    - an attribute *collector*: the kind of attribute open and its buffered lines;
    - the routes emitted so far.
  - A route's first line starts a route.
  - An indented alternate path starts a sibling route with the same network.
  - An attribute keyword opens a collector. Unrecognised non-blank lines while a collector is open are appended to its buffer.
  - The buffer is joined with no separator, trimmed, matched against the attribute's pattern and stored in the route. This happens when the next attribute or route starts, or when the input ends.
  - `mainRouteDetail` builds a route from the groups of a route-line match.
  - The value parsers are `parseCommunities` (RFC 1997 communities), `parseLargeCommunities` (section 2 of RFC 8092), `parseASPath` and the duplicate checks `containsCommunity` / `containsLargeCommunity`.
- **`show protocols all`.**
  - `ParseBGPProtocols` cuts a dump into blocks, one per BGP header line. It keeps the record of each block that passes `IsValid`.
  - `ParseBGPProtocol` tries an ordered list of line patterns on every line of a block. The first that matches sets its fields.
  - Two rules follow the loop:
    - the route limit defaults to the imported route count;
    - a block that mentions both the ipv4 and the ipv6 channel gives the empty record.
- **Coercers.**
  - `atoi` reads the integer before the first dot, or 0.
  - `parseOptionalInt` also reads a dash placeholder as 0.
  - `IsValid` is the record filter.

## Module layout

| module | file | role |
|---|---|---|
| `Wrappers` | wrappers.dfy | `Option` with failure propagation |
| `Text` | text.dfy | Go's `strings` functions, the regex character classes, and scanning helpers |
| `Subsequences` | subsequences.dfy | order-preserving selection |
| `Util` | util.dfy | `strconv.Atoi`, `atoi`, `parseOptionalInt` |
| `RouteModel` | route_model.dfy | `Route` and `RouteBGPInfo` |
| `RouteValues` | route_values.dfy | community, large-community and AS-path parsing, and the duplicate-free merge |
| `RouteLines` | route_lines.dfy | the recognisers of route.go's line patterns, and collector detection |
| `RouteParser` | route_parser.dfy | `mainRouteDetail`, the collector switch, the scan as a fold (`Step`, `Run`), the class `RouteScan`, `ParseRoutes` |
| `BgpProtocolModel` | bgp_protocol_model.dfy | `BgpProtocol` and its parts, `IsValid` |
| `BgpProtocolLines` | bgp_protocol_lines.dfy | the header recogniser, the field patterns, and the ordered first-match classifier |
| `BgpProtocolParser` | bgp_protocol.dfy | the record fold, `ParseBGPProtocol`, the splitter fold, `ParseBGPProtocols` |

**How the imperative code is modelled.** Each of the three loops over lines is a Dafny method with the same loop: route.go:135 (`RouteParser.RouteScan.ScanLines`), bgp_protocol.go:15 (`BgpProtocolParser.ScanBlock`) and bgp_protocol.go:213 (`BgpProtocolParser.ParseBGPProtocols`). The other loops run over tokens or community lists: the merges at route.go:63 and 75, the parsers at route.go:267, 286 and 324, and the membership tests at route.go:302 and 311. Each of these computes a value from its list and nothing else, so it is a recursive function over that list (`AddCommunities`, `AddLargeCommunities`, `CommunitiesOf`, `LargeCommunitiesOf`, `AsnsOf`, `ContainsCommunity`, `ContainsLargeCommunity`).

Each method's `ensures` ties its result to a left fold over the lines:
- `RouteParser.Run` and `RoutesOf`;
- `BgpProtocolParser.ExtractRun` and `ProtocolOf`;
- `BgpProtocolParser.SplitRun` and `ProtocolsOf`.

The properties are proved about these folds.

`ParseRoutes` keeps its state in local variables that two closures update. The class `RouteScan` holds that state:
- its fields are `routes`, `currentRoute`, `currentCollector` and `collectorLines`;
- its methods are the closures (`ResetCollector`, `ProcessCollector`), the loop (`ScanLines`), the loop body (`ScanLine`, split into `StartRoute`, `ContinueRoute` and `CollectLine`) and the statements after the loop (`Finish`).

**Regular expressions.** Each pattern is a hand-written recogniser.
- A greedy `X+` followed by something that cannot start with an `X` character is a maximal run (`Text.Span`, `Text.RunOf`).
- Bounded repetitions are written out (`Text.Exactly`, `Text.UpTo`).
- `\s` is RE2's `[\t\n\f\r ]` and `\w` is `[0-9A-Za-z_]`.
- `strings.TrimSpace` and `strings.Fields` use Unicode white space (`Text.IsSpace`).

**Banners and block boundaries in the protocol splitter.**
- The protocol splitter skips only lines starting with `BIRD` or `Access restricted` (bgp_protocol.go:216-219). A `Table ` line is not a banner there, unlike in the route parser (route.go:137-140).
- A header line that starts with `BIRD` is therefore skipped as a banner.
- Non-BGP headers (an RPKI block) are not a block boundary. Their lines are appended to the open BGP block, if there is one, and ignored before the first BGP header.

**Numeric typing.** The source does not type-check as written:
- bgp_protocol.go:62, 73-84 and 119 assign captured strings to `int` fields;
- bgp_protocol.go:192 compares the `int` field `RouteLimitAt` with `""`;
- bgp_protocol.go:140-186 calls `parseOptionalIntAsString`, which does not exist.

The model keeps the declared `int` fields:
- counters, limits and the neighbour AS go through `atoi`;
- the change statistics go through `parseOptionalInt`;
- `Preference` goes through `strconv.Atoi`, as written.

`RouteLimitAt` is an `Option<int>`. `None` is the "unset" that bgp_protocol.go:192 tests with `== ""`.

## Model

| member | source | states |
|---|---|---|
| Util.StrconvAtoi | util.go:17 | `strconv.Atoi` succeeds exactly on an optional sign followed by digits. Without a minus sign the value is not negative. A digit string reads as the number it denotes. |
| Util.AtoiIgnoresFraction | util.go:16-19 | Text after the first dot never changes `atoi`'s result. |
| Util.AtoiOfDigits | util.go:16-19 | `atoi` of a non-empty digit string is the number it denotes. |
| Util.AtoiOfDecimal | util.go:16-19 | `atoi` reads a printed counter back as the counter. |
| Util.AtoiTruncatesTimer | util.go:16-19 | `seconds.fraction` reads as the whole seconds, truncated and not rounded. |
| Util.AtoiZeroWhenNotInteger | util.go:16-19 | When the text before the first dot is not an integer, the error is dropped and the result is 0. |
| Util.AtoiHoldTimerExample | util.go:16-19 | `atoi("211.190") == 211` and `atoi("240") == 240`. |
| Util.ParseOptionalIntDash | util.go:9-14 | Any token holding a `-` reads as 0, because an all-digit token cannot hold one. |
| Util.ParseOptionalIntNoDash | util.go:9-14 | Without a `-`, `parseOptionalInt` is `atoi`, and never negative. |
| Util.ParseOptionalIntPlaceholder | util.go:9-14 | The placeholder `---` reads as 0. |
| Util.ParseOptionalIntOfDecimal | util.go:9-14 | A printed counter reads back as itself. |
| BgpProtocolModel.IsValidIff | bgp_protocol_model.go:52-59 | A record is invalid exactly when both the protocol and the table are empty. Either one alone makes it valid. |
| BgpProtocolModel.IsValidOnlyNames | bgp_protocol_model.go:52-59 | Validity depends only on the protocol and the table. |
| BgpProtocolModel.EmptyProtocolInvalid | bgp_protocol_model.go:52-59 | The zero record is invalid. |
| RouteValues.MatchCommunityToken | route.go:268 | `^\((\d+),(\d+)\)` captures two non-empty digit strings. |
| RouteValues.CommunitiesOf | route.go:267-275 | There is at most one community per token. Every community is a pair of non-negative numbers. |
| RouteValues.ParseCommunitiesRoundTrip | route.go:263-278 | Parsing a space-separated list of printed `(a,b)` communities gives back exactly those pairs, in order. |
| RouteValues.WrappedCommunityExample | route_test.go:134-135 | The pieces `(0,2` and `5133)` of a pair wrapped across two lines, joined with nothing in between, read as the single pair (0, 25133), as the test expects at route_test.go:181. |
| RouteValues.MatchLargeSegment | route.go:287 | `^(\d+),\s*(\d+),\s*(\d+)` captures three non-empty digit strings. |
| RouteValues.LargeCommunitiesOf | route.go:286-296 | There is at most one large community per segment. Every one is a triple of non-negative numbers. |
| RouteValues.ParseLargeCommunitiesRoundTrip | route.go:280-299 | Parsing a space-separated list of printed `(a, b, c)` large communities gives back exactly those triples, in order. The empty list is included. |
| RouteValues.ParseLargeCommunitiesEmpty | route.go:280-299 | An empty value holds no large community. |
| RouteValues.ContainsCommunity | route.go:301-308 | True exactly when the entry has two numbers and equals an element of the list. |
| RouteValues.ContainsLargeCommunity | route.go:310-318 | True exactly when the entry has three numbers and equals an element of the list. |
| RouteValues.AddCommunitiesSpec | route.go:62-67 | The merge keeps the held communities in front, in order. It repeats no pair. Its elements are exactly the held and the incoming ones. The added ones come from the incoming list and follow the order of their first occurrence there (`FirstSeenOrder`), so a repeated pair is placed where it first appears. |
| RouteValues.AddLargeCommunitiesSpec | route.go:74-79 | The same for large communities (triples), including the first-occurrence order of the added ones. |
| RouteValues.FirstDigitRun | route.go:328-329 | `(\d+)` finds nothing exactly when the token has no digit. Otherwise it finds a non-empty digit run. |
| RouteValues.AsnOfToken | route.go:324-334 | A token contributes an AS number exactly when it holds a digit. An integer token is read by `strconv.Atoi`. |
| RouteValues.AsnOfDecoratedToken | route.go:327-333 | A token that is not an integer contributes its first digit run. |
| RouteValues.AsnsOfLength | route.go:320-338 | The path is never longer than the token list. |
| RouteValues.AsnsOfAligned | route.go:320-338 | When every token holds a digit, the path has one entry per token, in order, duplicates kept. |
| RouteValues.ParseASPathRoundTrip | route.go:320-338 | Parsing a printed AS path gives back the same numbers, in order, duplicates included. |
| RouteLines.MatchRouteLine | route.go:144 | A route's first line gives the eleven groups. The line is group 0. The network, gateway part and protocol are non-empty. The via address and the interface are both present or both absent. The star group is `""` or `*`. The metric is digits. |
| RouteLines.MatchContinuationLine | route.go:152 | An alternate path gives ten groups with the same facts. The line starts with a space. |
| RouteLines.RouteLineKinds | route.go:144-152 | No line is both a route's first line and an alternate path. |
| RouteLines.MatchMetricTail | route.go:144 | The star group is `""` or `*`, and the metric is a non-empty digit string. |
| RouteLines.MatchMetrics | route.go:144 | `(\d+)(/(-?\d+))?\)` captures a non-empty digit metric. |
| RouteLines.DetectCollector | route.go:167-192 | The keyword switch, in the source's order. A line opens the gateway collector exactly when it starts with `via `. |
| RouteLines.MatchGatewayValue | route.go:49 | The gateway pattern captures a non-empty address and interface. |
| RouteLines.MatchNextHopValue | route.go:89 | The next-hop pattern captures a non-empty address made of address characters. |
| RouteLines.MatchMEDValue | route.go:103 | The MED pattern captures a non-empty digit string. |
| RouteParser.MainRouteDetailOfLine | route.go:215-261 | For a matched route line, `mainRouteDetail` gives the following route. It is named after the line's network. It is primary exactly when the star group is `*`. The gateway and interface come from the via clause if there is one, otherwise both are the gateway word. The protocol and from address are carried over. The metric is the number shown. There is no BGP record. |
| RouteParser.MainRouteDetailShort | route.go:217-219 | Fewer than nine groups give the zero route. |
| RouteParser.Resolve | route.go:47-130 | Only the gateway collector yields a gateway value. Community values are pairs and large-community values are triples. |
| RouteParser.ResolveCommunity | route.go:57-68 | The community arm yields communities or nothing. |
| RouteParser.StoreKeeps | route.go:47-130 | Storing any resolved value leaves the first-line fields alone. Only a gateway value replaces the gateway and interface. A BGP record is never dropped. Communities stay duplicate-free pairs and triples. |
| RouteParser.ResolveCollectorKeeps | route.go:39-133 | The same, for any collector and text. Only the gateway collector touches the gateway and interface. |
| RouteParser.StoreCommunities | route.go:57-68 | Storing communities keeps the held ones in front, repeats none, and holds exactly the old and the new ones. The new ones follow the order of their first occurrence in the incoming list. |
| RouteParser.ResolveCommunities | route.go:57-68 | A `BGP.community:` text adds its parsed communities under the same guarantees, in the order they first occur in the text. |
| RouteParser.Flush | route.go:39-42 | `processCollector` on an empty buffer changes nothing. On a non-empty buffer it closes the collector and empties the buffer. It never changes the emitted routes or the current network. |
| RouteParser.FlushAppended | route.go:44-45 | A buffer with one more line resolves the old text followed directly by that line. |
| RouteParser.WrappedValueJoined | route.go:44-45 | After a wrapped line, the collector resolves the buffered text joined with nothing in between. Together with `RouteValues.WrappedCommunityExample`, a community broken mid-number is read whole. |
| RouteParser.StepValid | route.go:135-205 | Every line keeps these facts: emitted routes have a network, communities are well formed, and a collector is open exactly while its buffer is non-empty. |
| RouteParser.RunValid | route.go:135-205 | Those facts hold after any prefix of the lines. |
| RouteParser.FinishValid | route.go:207-210 | The last flush and emit keep every route named and well formed. |
| RouteParser.RoutesOfNamed | route.go:146-148 | Every route returned has a non-empty network and well-formed communities. |
| RouteParser.BannerLineIgnored | route.go:138-142 | A line starting with `BIRD`, `Access restricted` or `Table ` changes nothing. |
| RouteParser.RouteLineStartsRoute | route.go:144-151 | A route's first line does the following. It flushes the collector. It emits the current route if that route has a network. It starts the line's route with no collector open. |
| RouteParser.ContinuationLineInherits | route.go:152-164 | An alternate path emits the current route and starts one with the same network, primary exactly when it carries `*`. With no route started it only flushes. |
| RouteParser.WrappedLineBuffered | route.go:193-197 | An unrecognised non-blank line is appended untrimmed to an open collector's buffer. Otherwise it is ignored. |
| RouteParser.AttributeLineOpensCollector | route.go:200-204 | An attribute line flushes the open collector. It then opens its own collector, with the line as its buffer. It emits nothing. |
| RouteParser.RouteScan.constructor | route.go:27-32 | The scan starts with no routes, the zero route, no collector and an empty buffer. |
| RouteParser.RouteScan.ResetCollector | route.go:34-37 | Closes the collector and empties the buffer. Nothing else changes. |
| RouteParser.RouteScan.ProcessCollector | route.go:39-133 | The state becomes `Flush` of the old state. |
| RouteParser.RouteScan.ScanLines | route.go:135-205 | The state after the loop is the fold `Run` of the lines. |
| RouteParser.RouteScan.ScanLine | route.go:136-204 | The state after one line is `Step` of the old state. |
| RouteParser.RouteScan.StartRoute | route.go:144-151 | The route-line branch. |
| RouteParser.RouteScan.ContinueRoute | route.go:152-164 | The alternate-path branch. |
| RouteParser.RouteScan.CollectLine | route.go:167-204 | The collector branch. |
| RouteParser.RouteScan.Finish | route.go:207-212 | The last flush, then the last emit. |
| RouteParser.ParseRoutes | route.go:26-213 | Returns `RoutesOf(data)`. Every route has a network and well-formed communities. |
| BgpProtocolLines.MatchHeader | bgp_protocol.go:25-27 | A header starts with a non-space character, names a non-empty protocol and holds `BGP`. |
| BgpProtocolLines.HeaderShape | bgp_protocol.go:249-252 | An indented line or a blank line is never a BGP header. |
| BgpProtocolLines.MatchRoutesShort | bgp_protocol.go:71 | The short `Routes:` pattern captures two digit strings. |
| BgpProtocolLines.MatchRoutesFull | bgp_protocol.go:78 | The full `Routes:` pattern captures four digit strings. |
| BgpProtocolLines.FieldPair | bgp_protocol.go:118-133 | The route-limit and timer patterns capture two non-empty halves of the allowed characters. |
| BgpProtocolLines.MatchChangeLine | bgp_protocol.go:135-189 | A change line has five columns. The first is digits. Each other column is digits, or a dash placeholder where the pattern allows one. |
| BgpProtocolLines.ColumnValueSpec | bgp_protocol.go:140-186 | A placeholder column reads as 0. A digit column reads as its value. |
| BgpProtocolLines.ChangeDetailExample | bgp_protocol.go:149-160 | The row `7473 0 --- 6616 857` gives received 7473, rejected 0, filtered 0, ignored 6616, accepted 857. |
| BgpProtocolLines.ChangeRowValues | bgp_protocol.go:135-189 | Every column of a classified change line decodes to a non-negative value. Placeholders never occur in `Import updates`. |
| BgpProtocolLines.TryField | bgp_protocol.go:36-189 | A field pattern never yields a header or an ignored line. A change line comes from its own kind's pattern. |
| BgpProtocolLines.FirstMatchWins | bgp_protocol.go:36-189 | A line is classified by the first pattern, in the source's order, that matches it. |
| BgpProtocolLines.NoMatchIgnored | bgp_protocol.go:15-190 | A line no pattern matches is ignored. |
| BgpProtocolLines.HeaderFirst | bgp_protocol.go:27-34 | A header line is classified as a header before any field pattern is tried. |
| BgpProtocolLines.OnlyHeadersAreHeaders | bgp_protocol.go:27-34 | A line is classified as a header exactly when it is a BGP header line. |
| BgpProtocolParser.ApplyLineFrame | bgp_protocol.go:27-121 | Only a header sets the protocol, state and connection. Only a header or a `Table:` line sets the table. Only a `Route limit:` line sets the route limit. |
| BgpProtocolParser.LastHeaderWins | bgp_protocol.go:27-34 | The last header of a block names the protocol, state and connection. |
| BgpProtocolParser.LastTableWins | bgp_protocol.go:28-44 | The table is the one named by the last header or `Table:` line. An indented `Table:` line replaces the header's table. |
| BgpProtocolParser.RouteLimitUnset | bgp_protocol.go:118-121 | The route limit stays unset exactly while no `Route limit:` line has been seen. |
| BgpProtocolParser.ChannelsInSpec | bgp_protocol.go:18-23 | A channel is recorded exactly when some line mentions it. No other key is set. |
| BgpProtocolParser.DualChannelDropped | bgp_protocol.go:196-199 | A block that mentions both channels gives the empty record, which is invalid. |
| BgpProtocolParser.RouteLimitDefault | bgp_protocol.go:192-194 | After the rules, a record with routes has a route limit. Without a `Route limit:` line the limit is the imported count when there are routes, and unset otherwise. |
| BgpProtocolParser.HoldTimerTruncated | bgp_protocol.go:123-127 | A timer `seconds.fraction/limit` is stored as the whole seconds and the limit. |
| BgpProtocolParser.NoteChannels | bgp_protocol.go:18-23 | Adds exactly the channels the line mentions. |
| BgpProtocolParser.ScanBlock | bgp_protocol.go:13-190 | The record and channel set after the loop are the fold `ExtractRun` of the lines. |
| BgpProtocolParser.FinishRecord | bgp_protocol.go:192-201 | Applies the two rules after the loop. A record with routes then has a route limit. |
| BgpProtocolParser.ParseBGPProtocol | bgp_protocol.go:9-202 | Returns `ProtocolOf(data)`. A record with routes has a route limit. |
| BgpProtocolParser.RecordOfBlock | bgp_protocol.go:28 | A kept block's record is named after the block's header. |
| BgpProtocolParser.BlockRecord | bgp_protocol.go:222-225 | The same, for the block re-joined with line breaks and parsed. |
| BgpProtocolParser.KeepRecord | bgp_protocol.go:222-227 | Keeping a record only when it is valid extends the records, in header order. |
| BgpProtocolParser.FlushKeeps | bgp_protocol.go:239-244 | Parsing the open block keeps every record valid and the names a subsequence of the header names. |
| BgpProtocolParser.SplitStepInv | bgp_protocol.go:213-236 | Every line keeps the splitter invariant. |
| BgpProtocolParser.SplitRunInv | bgp_protocol.go:213-237 | The splitter invariant holds after any prefix of the lines. |
| BgpProtocolParser.ProtocolsOfSpec | bgp_protocol.go:204-247 | Every record returned is valid. The names follow the header order, at most one record per header. |
| BgpProtocolParser.Blocks | bgp_protocol.go:213-237 | A second definition of the blocks, read front to back, independent of the loop: one block per line that opens one. The block is that line followed by the later lines that are not banners, headers or blank, up to the next opening line. Each block starts with a header line. |
| BgpProtocolParser.BlocksHeaders | bgp_protocol.go:221-232 | There are exactly as many blocks as opening header lines. The `i`-th block starts with the `i`-th header, so its protocol name is the `i`-th header name. |
| BgpProtocolParser.FlushRun | bgp_protocol.go:213-244 | From any loop state, running the rest of the lines and the final flush keeps what that state keeps, with the first body of the lines added to its open block, followed by the valid records of the blocks of the lines. |
| BgpProtocolParser.FlushStep | bgp_protocol.go:216-236 | One line in front: a banner, a header, a line joining the open block and a skipped line each agree with the front-to-back reading of the blocks. |
| BgpProtocolParser.ProtocolsOfBlocks | bgp_protocol.go:204-247 | The records returned are, block by block and in order, the record of each block exactly when that record is valid. |
| BgpProtocolParser.ProtocolsOfComplete | bgp_protocol.go:204-247 | A block's record is returned if and only if it is valid, in both directions. There are never more records than blocks. |
| BgpProtocolParser.PreambleIgnored | bgp_protocol.go:221-236 | Lines before the first BGP header, such as an RPKI block, open nothing and keep nothing. |
| BgpProtocolParser.BlankLineIgnored | bgp_protocol.go:234-236 | A blank line changes nothing. |
| BgpProtocolParser.ParseBGPProtocols | bgp_protocol.go:204-247 | Returns `ProtocolsOf(data)`. All records are valid and follow the header order. The result is the valid records of `Blocks` of the lines, in block order, so every valid block is returned. |

## Left out

- Go's `regexp` engine. Each pattern is a dedicated recogniser, built as described above, not a general matcher.
- Range errors of `strconv.Atoi`. Dafny integers are unbounded, so a digit string beyond the 64-bit range reads as its value. In Go, `strconv.Atoi` then returns the clamped bound with an error: `atoi` (util.go:17) and `Preference` (bgp_protocol.go:47) discard the error and keep the bound; a community or large community with such a number is dropped (route.go:269-291); an AS-path token whose digits overflow is dropped (route.go:325-331); the metric and IGP metric keep 0 (route.go:249-259).
- JSON struct tags and serialisation, in route_model.go and bgp_protocol_model.go.
- `DescriptionShort` (bgp_protocol_model.go:31). No code sets it.
- Pointer identity and aliasing of `*RouteBGPInfo`, `*BgpProtocolBgpRoutes`, `*BgpProtocolRouteChanges` and the change details. They are `Option` values, because nothing is shared.
- The distinction between a nil slice and an empty one. Both are `[]`.
- The error result of `parseASPath` (always nil) is dropped, so `ParseASPath` returns the path only.
- `seenChannels` is a `set` of the keys set to true, not a map.
- `ParseBGPProtocol`'s record updates: each branch's field assignments are the pure `ApplyLine`, applied by the loop in `ScanBlock`.
- `ParseRoutes`'s loop body is split into the methods `StartRoute`, `ContinueRoute` and `CollectLine`, one per branch.
- RouteValues.ParseCommunitiesRoundTrip: stated for text in the daemon's printed form (single spaces, decimal numbers without leading zeros); other spellings are covered by the per-token facts only.
- RouteValues.ParseLargeCommunitiesRoundTrip: stated for the daemon's printed form, as above.
- RouteValues.ParseASPathRoundTrip: stated for the daemon's printed form, as above.
