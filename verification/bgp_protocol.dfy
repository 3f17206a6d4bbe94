/**
 * bgp_protocol.go. `ParseBGPProtocol` turns one block of `show protocols all` output into a record;
 * `ParseBGPProtocols` cuts a whole dump into blocks, one per BGP header line, and keeps the valid
 * records. Both are loops over the lines. Each method is proved equal to a left fold over the lines
 * (`ProtocolOf`, `ProtocolsOf`), and the properties are proved about the folds.
 */
module BgpProtocolParser {
  import opened Wrappers
  import opened Text
  import opened Util
  import opened Subsequences
  import opened BgpProtocolModel
  import opened BgpProtocolLines

  // ---------------------------------------------------------------------------------------------
  // One block: ParseBGPProtocol

  /** The route change statistics so far; the first change line creates them. */
  function ChangesOf(p: BgpProtocol): BgpProtocolRouteChanges {
    p.routeChanges.GetOr(NoRouteChanges)
  }

  /** The statistics with the row `kind` set to `detail`. */
  function SetRow(c: BgpProtocolRouteChanges, kind: ChangeKind, detail: BgpProtocolRouteChangeDetail): BgpProtocolRouteChanges {
    match kind
    case ImportUpdates => c.(importUpdates := Some(detail))
    case ImportWithdraws => c.(importWithdraws := Some(detail))
    case ExportUpdates => c.(exportUpdates := Some(detail))
    case ExportWithdraws => c.(exportWithdraws := Some(detail))
  }

  /** What one classified line does to the record: the assignments in the branch of its pattern. */
  function ApplyLine(p: BgpProtocol, l: ProtocolLine): BgpProtocol {
    match l
    case Header(protocol, table, state, connection) =>
      p.(protocol := protocol, table := table, state := state, connection := connection)
    case DescriptionLine(text) => p.(description := text)
    case TableLine(table) => p.(table := table)
    case PreferenceLine(value) => p.(preference := StrconvAtoi(value).GetOr(0))
    case InputFilterLine(name) => p.(inputFilter := name)
    case OutputFilterLine(name) => p.(outputFilter := name)
    case ImportLimitLine(value) => p.(importLimit := Atoi(value))
    case ActionLine(action) => p.(limitAction := action)
    case RoutesLine(imported, exported) =>
      p.(routes := Some(BgpProtocolBgpRoutes(Atoi(imported), 0, Atoi(exported), 0)))
    case RoutesFullLine(imported, filtered, exported, preferred) =>
      p.(routes := Some(BgpProtocolBgpRoutes(Atoi(imported), Atoi(filtered), Atoi(exported), Atoi(preferred))))
    case BgpStateLine(state) => p.(bgpState := state)
    case NeighborAddressLine(address) => p.(neighborAddress := address)
    case NeighborASLine(asn) => p.(neighborAS := Atoi(asn))
    case NeighborIDLine(id) => p.(neighborID := id)
    case SessionLine(text) => p.(bgpSession := Fields(text))
    case SourceAddressLine(address) => p.(sourceAddress := address)
    case RouteLimitLine(at, _) => p.(routeLimitAt := Some(Atoi(at)))
    case HoldTimerLine(now, limit) => p.(holdTimerNow := Atoi(now), holdTimer := Atoi(limit))
    case KeepaliveTimerLine(now, limit) => p.(keepaliveNow := Atoi(now), keepalive := Atoi(limit))
    case ChangeLine(kind, columns) =>
      p.(routeChanges := Some(SetRow(ChangesOf(p), kind, ChangeDetail(columns))))
    case OtherLine => p
  }

  /** A raw line of a block, with its carriage returns trimmed, classified. */
  function Classified(raw: string): ProtocolLine {
    ClassifyLine(TrimRightCR(raw))
  }

  /** The channels a line mentions. */
  function ChannelsOf(line: string): set<string> {
    (if Contains(line, "Channel ipv4") then {"ipv4"} else {}) + (if Contains(line, "Channel ipv6") then {"ipv6"} else {})
  }

  /** Which fields a line sets: each line sets the fields of its own pattern and leaves the rest alone. */
  lemma {:induction false} ApplyLineFrame(p: BgpProtocol, l: ProtocolLine)
    ensures var q := ApplyLine(p, l);
      && (l.Header? ==> q.protocol == l.protocol && q.state == l.state && q.connection == l.connection)
      && (!l.Header? ==> q.protocol == p.protocol && q.state == p.state && q.connection == p.connection)
      && (l.Header? || l.TableLine? ==> q.table == l.table)
      && (!l.Header? && !l.TableLine? ==> q.table == p.table)
      && (l.RouteLimitLine? ==> q.routeLimitAt == Some(Atoi(l.at)))
      && (!l.RouteLimitLine? ==> q.routeLimitAt == p.routeLimitAt)
  {
  }

  /** The record after the lines `ls`, applied in order to `p`. */
  function ApplyAll(p: BgpProtocol, ls: seq<ProtocolLine>): BgpProtocol
    decreases |ls|
  {
    if ls == [] then p else ApplyLine(ApplyAll(p, ls[..|ls| - 1]), ls[|ls| - 1])
  }

  /** Each line of a block, classified. */
  function ClassifyAll(lines: seq<string>): (ls: seq<ProtocolLine>)
    ensures |ls| == |lines|
    decreases |lines|
  {
    if lines == [] then [] else ClassifyAll(lines[..|lines| - 1]) + [Classified(lines[|lines| - 1])]
  }

  lemma {:induction false} ClassifyAllAt(lines: seq<string>, k: nat)
    requires k < |lines|
    ensures ClassifyAll(lines)[k] == Classified(lines[k])
    decreases |lines|
  {
    if k < |lines| - 1 {
      ClassifyAllAt(lines[..|lines| - 1], k);
    }
  }

  /** The channels some line of `lines` mentions. */
  function ChannelsIn(lines: seq<string>): set<string>
    decreases |lines|
  {
    if lines == [] then {} else ChannelsIn(lines[..|lines| - 1]) + ChannelsOf(TrimRightCR(lines[|lines| - 1]))
  }

  /** The state of `ParseBGPProtocol`'s loop: the record so far and the channels seen. */
  datatype Extraction = Extraction(result: BgpProtocol, seenChannels: set<string>)

  /** The loop's state after the lines `lines`. */
  function ExtractRun(lines: seq<string>): Extraction {
    Extraction(ApplyAll(EmptyProtocol, ClassifyAll(lines)), ChannelsIn(lines))
  }

  /** One more line: the loop's body. */
  lemma {:induction false} ExtractRunStep(lines: seq<string>, raw: string)
    ensures var e, line := ExtractRun(lines), TrimRightCR(raw);
      ExtractRun(lines + [raw]) == Extraction(ApplyLine(e.result, ClassifyLine(line)), e.seenChannels + ChannelsOf(line))
  {
    var all := lines + [raw];
    assert all[..|lines|] == lines;
    assert ClassifyAll(all)[..|lines|] == ClassifyAll(lines);
  }

  /** The loop's state after one more line of `lines`. */
  lemma ExtractRunAt(lines: seq<string>, i: nat)
    requires i < |lines|
    ensures var e, line := ExtractRun(lines[..i]), TrimRightCR(lines[i]);
      ExtractRun(lines[..i + 1]) == Extraction(ApplyLine(e.result, ClassifyLine(line)), e.seenChannels + ChannelsOf(line))
  {
    assert lines[..i + 1] == lines[..i] + [lines[i]];
    ExtractRunStep(lines[..i], lines[i]);
  }

  /** The two rules after the loop: the route limit defaults to the imported count, and a block with both channels is dropped. */
  function Finish(e: Extraction): BgpProtocol {
    var p := e.result;
    var q := if p.routeLimitAt.None? && p.routes.Some? then p.(routeLimitAt := Some(p.routes.value.imported)) else p;
    if "ipv4" in e.seenChannels && "ipv6" in e.seenChannels then EmptyProtocol else q
  }

  /** What `ParseBGPProtocol` returns. */
  function ProtocolOf(data: string): BgpProtocol {
    Finish(ExtractRun(SplitOn(data, "\n")))
  }

  /** The header that comes last names the protocol, its state and its connection; no other line touches them. */
  lemma {:induction false} LastHeaderWins(p: BgpProtocol, ls: seq<ProtocolLine>, k: nat)
    requires k < |ls| && ls[k].Header?
    requires forall j | k < j < |ls| :: !ls[j].Header?
    ensures var q := ApplyAll(p, ls);
      q.protocol == ls[k].protocol && q.state == ls[k].state && q.connection == ls[k].connection
    decreases |ls|
  {
    var init := ls[..|ls| - 1];
    ApplyLineFrame(ApplyAll(p, init), ls[|ls| - 1]);
    if k < |ls| - 1 {
      LastHeaderWins(p, init, k);
    }
  }

  /** The table is the one named by the last line that names one, a header or an indented `Table:` line. */
  lemma {:induction false} LastTableWins(p: BgpProtocol, ls: seq<ProtocolLine>, k: nat)
    requires k < |ls| && (ls[k].Header? || ls[k].TableLine?)
    requires forall j | k < j < |ls| :: !ls[j].Header? && !ls[j].TableLine?
    ensures ApplyAll(p, ls).table == ls[k].table
    decreases |ls|
  {
    var init := ls[..|ls| - 1];
    ApplyLineFrame(ApplyAll(p, init), ls[|ls| - 1]);
    if k < |ls| - 1 {
      LastTableWins(p, init, k);
    }
  }

  /** The route limit stays unset exactly while no `Route limit:` line has been seen. */
  lemma {:induction false} RouteLimitUnset(p: BgpProtocol, ls: seq<ProtocolLine>)
    ensures ApplyAll(p, ls).routeLimitAt.None? <==>
              p.routeLimitAt.None? && forall k | 0 <= k < |ls| :: !ls[k].RouteLimitLine?
    decreases |ls|
  {
    if ls != [] {
      var init := ls[..|ls| - 1];
      ApplyLineFrame(ApplyAll(p, init), ls[|ls| - 1]);
      RouteLimitUnset(p, init);
    }
  }

  /** Some line of `lines` contains `needle`, once its carriage returns are trimmed. */
  predicate Mentions(lines: seq<string>, needle: string) {
    exists k | 0 <= k < |lines| :: Contains(TrimRightCR(lines[k]), needle)
  }

  lemma {:induction false} MentionsStep(lines: seq<string>, raw: string, needle: string)
    ensures Mentions(lines + [raw], needle) <==> Mentions(lines, needle) || Contains(TrimRightCR(raw), needle)
  {
    var all := lines + [raw];
    if Mentions(all, needle) {
      var k :| 0 <= k < |all| && Contains(TrimRightCR(all[k]), needle);
      if k < |lines| {
        assert all[k] == lines[k];
      }
    }
    if Mentions(lines, needle) {
      var k :| 0 <= k < |lines| && Contains(TrimRightCR(lines[k]), needle);
      assert all[k] == lines[k];
    }
    assert all[|lines|] == raw;
  }

  /** A channel is seen exactly when some line mentions it, and no other key is ever set. */
  lemma {:induction false} ChannelsInSpec(lines: seq<string>)
    ensures ChannelsIn(lines) <= {"ipv4", "ipv6"}
    ensures "ipv4" in ChannelsIn(lines) <==> Mentions(lines, "Channel ipv4")
    ensures "ipv6" in ChannelsIn(lines) <==> Mentions(lines, "Channel ipv6")
    decreases |lines|
  {
    if lines != [] {
      var init := lines[..|lines| - 1];
      var raw := lines[|lines| - 1];
      ChannelsInSpec(init);
      assert init + [raw] == lines;
      MentionsStep(init, raw, "Channel ipv4");
      MentionsStep(init, raw, "Channel ipv6");
    }
  }

  /** A block that mentions both channels gives the empty record, which is not valid. */
  lemma {:induction false} DualChannelDropped(data: string, j: nat, k: nat)
    requires j < |SplitOn(data, "\n")| && Contains(TrimRightCR(SplitOn(data, "\n")[j]), "Channel ipv4")
    requires k < |SplitOn(data, "\n")| && Contains(TrimRightCR(SplitOn(data, "\n")[k]), "Channel ipv6")
    ensures ProtocolOf(data) == EmptyProtocol && !ProtocolOf(data).IsValid()
  {
    ChannelsInSpec(SplitOn(data, "\n"));
  }

  /** After the rules, a record with routes always has a route limit; without a `Route limit:` line it is the imported count. */
  lemma {:induction false} RouteLimitDefault(e: Extraction, ls: seq<ProtocolLine>)
    requires e.result == ApplyAll(EmptyProtocol, ls)
    ensures var r := Finish(e); r.routes.Some? ==> r.routeLimitAt.Some?
    ensures var r := Finish(e);
      (forall k | 0 <= k < |ls| :: !ls[k].RouteLimitLine?) ==>
        r.routeLimitAt == (if r.routes.Some? then Some(r.routes.value.imported) else None)
  {
    RouteLimitUnset(EmptyProtocol, ls);
  }

  /** A timer printed as `seconds.fraction/limit` is kept in whole seconds. */
  lemma {:induction false} HoldTimerTruncated(p: BgpProtocol, seconds: nat, fraction: string, limit: nat)
    ensures var q := ApplyLine(p, HoldTimerLine(DecimalString(seconds) + "." + fraction, DecimalString(limit)));
      q.holdTimerNow == seconds && q.holdTimer == limit
  {
    AtoiTruncatesTimer(seconds, fraction);
    AtoiOfDecimal(limit);
  }

  /** The channel checks at the top of `ParseBGPProtocol`'s loop. */
  method NoteChannels(seen: set<string>, line: string) returns (seenChannels: set<string>)
    ensures seenChannels == seen + ChannelsOf(line)
  {
    seenChannels := seen;
    if Contains(line, "Channel ipv4") {
      seenChannels := seenChannels + {"ipv4"};
    }
    if Contains(line, "Channel ipv6") {
      seenChannels := seenChannels + {"ipv6"};
    }
  }

  /** `ParseBGPProtocol`'s loop over the lines of a block: the record so far and the channels seen. */
  method ScanBlock(lines: seq<string>) returns (result: BgpProtocol, seenChannels: set<string>)
    ensures Extraction(result, seenChannels) == ExtractRun(lines)
  {
    result := EmptyProtocol;
    seenChannels := {};
    for i := 0 to |lines|
      invariant Extraction(result, seenChannels) == ExtractRun(lines[..i])
    {
      ExtractRunAt(lines, i);
      var line := TrimRightCR(lines[i]);
      seenChannels := NoteChannels(seenChannels, line);
      result := ApplyLine(result, ClassifyLine(line));
    }
    assert lines[..|lines|] == lines;
  }

  /** `ParseBGPProtocol`: one block's lines, folded into a record, then the two rules after the loop. */
  method ParseBGPProtocol(data: string) returns (result: BgpProtocol)
    ensures result == ProtocolOf(data)
    ensures result.routes.Some? ==> result.routeLimitAt.Some?
  {
    var lines := SplitOn(data, "\n");
    var current, seenChannels := ScanBlock(lines);
    result := FinishRecord(current, seenChannels);
  }

  /** The two rules after `ParseBGPProtocol`'s loop. */
  method FinishRecord(current: BgpProtocol, seenChannels: set<string>) returns (result: BgpProtocol)
    ensures result == Finish(Extraction(current, seenChannels))
    ensures result.routes.Some? ==> result.routeLimitAt.Some?
  {
    result := current;
    if result.routeLimitAt.None? && result.routes.Some? {
      result := result.(routeLimitAt := Some(result.routes.value.imported));
    }
    if "ipv4" in seenChannels && "ipv6" in seenChannels {
      result := EmptyProtocol;
    }
  }

  // ---------------------------------------------------------------------------------------------
  // A whole dump: ParseBGPProtocols

  /** The daemon's greeting and its access notice. */
  predicate IsProtocolBanner(line: string) {
    HasPrefix(line, "BIRD") || HasPrefix(line, "Access restricted")
  }

  /** The state of `ParseBGPProtocols`'s loop. */
  datatype SplitState = SplitState(results: seq<BgpProtocol>, currentBlock: seq<string>, inBlock: bool)

  const Unsplit := SplitState([], [], false)

  /** The records once the open block, if any, has been parsed and kept when valid. */
  function FlushBlock(st: SplitState): seq<BgpProtocol> {
    if st.inBlock && |st.currentBlock| > 0 then
      var p := ProtocolOf(Join(st.currentBlock, "\n"));
      if p.IsValid() then st.results + [p] else st.results
    else st.results
  }

  function SplitStep(st: SplitState, raw: string): SplitState {
    var line := TrimRightCR(raw);
    if IsProtocolBanner(line) then st
    else if IsBGPHeaderLine(line) then SplitState(FlushBlock(st), [line], true)
    else if st.inBlock && TrimSpace(line) != "" then st.(currentBlock := st.currentBlock + [line])
    else st
  }

  /** The loop over the lines of a dump, as a left fold. */
  function SplitRun(st: SplitState, lines: seq<string>): SplitState
    decreases |lines|
  {
    if lines == [] then st else SplitStep(SplitRun(st, lines[..|lines| - 1]), lines[|lines| - 1])
  }

  /** The loop's state after one more line of `lines`. */
  lemma SplitRunAt(lines: seq<string>, i: nat)
    requires i < |lines|
    ensures SplitRun(Unsplit, lines[..i + 1]) == SplitStep(SplitRun(Unsplit, lines[..i]), lines[i])
  {
    assert lines[..i + 1][..i] == lines[..i];
  }

  /** What `ParseBGPProtocols` returns. */
  function ProtocolsOf(data: string): seq<BgpProtocol> {
    FlushBlock(SplitRun(Unsplit, SplitOn(data, "\n")))
  }

  /** Whether a raw line opens a block: a header line not taken for a banner. */
  predicate OpensBlock(raw: string) {
    var line := TrimRightCR(raw);
    !IsProtocolBanner(line) && IsBGPHeaderLine(line)
  }

  function HeaderName(line: string): (name: string)
    requires IsBGPHeaderLine(line)
    ensures name != []
  {
    MatchHeader(line).value.protocol
  }

  /** The protocol names of the lines that open blocks, in order. */
  function HeaderNames(lines: seq<string>): seq<string>
    decreases |lines|
  {
    if lines == [] then []
    else
      var raw := lines[|lines| - 1];
      HeaderNames(lines[..|lines| - 1]) + (if OpensBlock(raw) then [HeaderName(TrimRightCR(raw))] else [])
  }

  /** The protocol names of some records, in order. */
  function Names(ps: seq<BgpProtocol>): (names: seq<string>)
    ensures |names| == |ps|
    decreases |ps|
  {
    if ps == [] then [] else Names(ps[..|ps| - 1]) + [ps[|ps| - 1].protocol]
  }

  /** An open block: a header line, then lines that are not headers, each trimmed and without a line break. */
  predicate BlockShape(block: seq<string>) {
    && |block| >= 1
    && IsBGPHeaderLine(block[0])
    && (forall j | 0 <= j < |block| :: '\n' !in block[j] && TrimRightCR(block[j]) == block[j])
    && (forall j | 1 <= j < |block| :: !IsBGPHeaderLine(block[j]))
  }

  /**
   * What the splitting loop keeps: the records are valid; before the first header nothing is open and
   * nothing kept; after it the open block belongs to the last header, and the records name the earlier
   * headers, in order, at most once each.
   */
  predicate SplitInv(st: SplitState, lines: seq<string>) {
    var names := HeaderNames(lines);
    && (forall k | 0 <= k < |st.results| :: st.results[k].IsValid())
    && (if st.inBlock then
          && BlockShape(st.currentBlock)
          && |names| >= 1 && names[|names| - 1] == HeaderName(st.currentBlock[0])
          && IsSubsequence(Names(st.results), names[..|names| - 1])
        else st.results == [] && st.currentBlock == [] && names == [])
  }

  /** A block classifies as its header followed by lines that are not headers. */
  lemma {:induction false} BlockClassified(block: seq<string>)
    requires BlockShape(block)
    ensures var ls := ClassifyAll(block);
      && ls[0].Header? && ls[0].protocol == HeaderName(block[0])
      && forall j | 0 < j < |ls| :: !ls[j].Header?
  {
    var ls := ClassifyAll(block);
    ClassifyAllAt(block, 0);
    OnlyHeadersAreHeaders(block[0]);
    forall j | 0 < j < |block| ensures !ls[j].Header? {
      ClassifyAllAt(block, j);
      OnlyHeadersAreHeaders(block[j]);
    }
  }

  /** The record of a block's lines is named after the block's header whenever it is kept. */
  lemma {:induction false} RecordOfBlock(block: seq<string>)
    requires BlockShape(block)
    ensures var p := Finish(ExtractRun(block)); p.IsValid() ==> p.protocol == HeaderName(block[0])
  {
    BlockClassified(block);
    LastHeaderWins(EmptyProtocol, ClassifyAll(block), 0);
  }

  /** The record of a block is named after the block's header whenever it is kept. */
  lemma {:induction false} BlockRecord(block: seq<string>)
    requires BlockShape(block)
    ensures var p := ProtocolOf(Join(block, "\n")); p.IsValid() ==> p.protocol == HeaderName(block[0])
  {
    SplitJoin(block, "\n");
    RecordOfBlock(block);
  }

  /** Keeping a record named `last` only when it is valid extends the records along the names `prior + [last]`. */
  lemma {:induction false} KeepRecord(results: seq<BgpProtocol>, prior: seq<string>, last: string, p: BgpProtocol)
    requires forall k | 0 <= k < |results| :: results[k].IsValid()
    requires IsSubsequence(Names(results), prior)
    requires p.IsValid() ==> p.protocol == last
    ensures var r := if p.IsValid() then results + [p] else results;
      (forall k | 0 <= k < |r| :: r[k].IsValid()) && IsSubsequence(Names(r), prior + [last])
  {
    if p.IsValid() {
      var r := results + [p];
      assert r[..|results|] == results;
      assert Names(r) == Names(results) + [p.protocol];
      SubsequenceAppend(Names(results), prior, p.protocol);
    } else {
      SubsequenceExtend(Names(results), prior, last);
    }
  }

  /** Parsing the open block keeps the records valid and named after the headers, in order. */
  lemma {:induction false} FlushKeeps(st: SplitState, lines: seq<string>)
    requires SplitInv(st, lines)
    ensures var r := FlushBlock(st);
      (forall k | 0 <= k < |r| :: r[k].IsValid()) && IsSubsequence(Names(r), HeaderNames(lines))
  {
    if st.inBlock {
      var names := HeaderNames(lines);
      var n := |names|;
      assert names == names[..n - 1] + [names[n - 1]];
      BlockRecord(st.currentBlock);
      KeepRecord(st.results, names[..n - 1], names[n - 1], ProtocolOf(Join(st.currentBlock, "\n")));
    }
  }

  /** One more line adds its header's name when it opens a block. */
  lemma {:induction false} HeaderNamesStep(lines: seq<string>, raw: string)
    ensures HeaderNames(lines + [raw]) ==
              HeaderNames(lines) + (if OpensBlock(raw) then [HeaderName(TrimRightCR(raw))] else [])
  {
    assert (lines + [raw])[..|lines|] == lines;
  }

  /** A header line closes the open block and opens its own. */
  lemma {:induction false} HeaderStepInv(st: SplitState, lines: seq<string>, raw: string)
    requires SplitInv(st, lines) && '\n' !in raw && OpensBlock(raw)
    ensures SplitInv(SplitState(FlushBlock(st), [TrimRightCR(raw)], true), lines + [raw])
  {
    FlushKeeps(st, lines);
    OpenBlockInv(FlushBlock(st), lines, raw);
  }

  /** Records named along the headers so far, followed by a header line that opens a block. */
  lemma {:induction false} OpenBlockInv(results: seq<BgpProtocol>, lines: seq<string>, raw: string)
    requires forall k | 0 <= k < |results| :: results[k].IsValid()
    requires IsSubsequence(Names(results), HeaderNames(lines))
    requires '\n' !in raw && OpensBlock(raw)
    ensures SplitInv(SplitState(results, [TrimRightCR(raw)], true), lines + [raw])
  {
    var line := TrimRightCR(raw);
    TrimRightCRStable(raw, '\n');
    HeaderNamesStep(lines, raw);
    var names := HeaderNames(lines + [raw]);
    assert names[..|names| - 1] == HeaderNames(lines);
    assert BlockShape([line]);
  }

  /** A line inside a block that is neither a banner, a header nor blank joins the open block. */
  lemma {:induction false} AppendStepInv(st: SplitState, lines: seq<string>, raw: string)
    requires SplitInv(st, lines) && '\n' !in raw && st.inBlock
    requires !IsBGPHeaderLine(TrimRightCR(raw)) && !IsProtocolBanner(TrimRightCR(raw))
    ensures SplitInv(st.(currentBlock := st.currentBlock + [TrimRightCR(raw)]), lines + [raw])
  {
    var line := TrimRightCR(raw);
    TrimRightCRStable(raw, '\n');
    HeaderNamesStep(lines, raw);
    assert HeaderNames(lines + [raw]) == HeaderNames(lines);
    BlockShapeAppend(st.currentBlock, line);
  }

  /** A block stays well shaped when a trimmed line that is not a header joins it. */
  lemma {:induction false} BlockShapeAppend(block: seq<string>, line: string)
    requires BlockShape(block) && '\n' !in line && TrimRightCR(line) == line && !IsBGPHeaderLine(line)
    ensures BlockShape(block + [line]) && (block + [line])[0] == block[0]
  {
    var b := block + [line];
    assert b[..|block|] == block;
    assert forall j | 0 <= j < |block| :: b[j] == block[j];
  }

  /** One line keeps the splitting invariant. */
  lemma {:induction false} SplitStepInv(st: SplitState, lines: seq<string>, raw: string)
    requires SplitInv(st, lines) && '\n' !in raw
    ensures SplitInv(SplitStep(st, raw), lines + [raw])
  {
    var line := TrimRightCR(raw);
    if IsProtocolBanner(line) {
      HeaderNamesStep(lines, raw);
      assert HeaderNames(lines + [raw]) == HeaderNames(lines);
    } else if IsBGPHeaderLine(line) {
      HeaderStepInv(st, lines, raw);
    } else if st.inBlock && TrimSpace(line) != "" {
      AppendStepInv(st, lines, raw);
    } else {
      HeaderNamesStep(lines, raw);
      assert HeaderNames(lines + [raw]) == HeaderNames(lines);
    }
  }

  /** The splitting invariant holds after every prefix of a dump's lines. */
  lemma {:induction false} SplitRunInv(lines: seq<string>)
    requires forall k | 0 <= k < |lines| :: '\n' !in lines[k]
    ensures SplitInv(SplitRun(Unsplit, lines), lines)
    decreases |lines|
  {
    if lines != [] {
      var init := lines[..|lines| - 1];
      SplitRunInv(init);
      SplitStepInv(SplitRun(Unsplit, init), init, lines[|lines| - 1]);
      assert init + [lines[|lines| - 1]] == lines;
    }
  }

  /**
   * Every record returned is valid, and the records follow the order of the header lines with at most
   * one record per header: their names are a subsequence of the headers' names.
   */
  lemma {:induction false} ProtocolsOfSpec(data: string)
    ensures forall k | 0 <= k < |ProtocolsOf(data)| :: ProtocolsOf(data)[k].IsValid()
    ensures IsSubsequence(Names(ProtocolsOf(data)), HeaderNames(SplitOn(data, "\n")))
    ensures |ProtocolsOf(data)| <= |HeaderNames(SplitOn(data, "\n"))|
  {
    var lines := SplitOn(data, "\n");
    SplitAvoids(data, '\n');
    SplitRunInv(lines);
    FlushKeeps(SplitRun(Unsplit, lines), lines);
    SubsequenceLength(Names(ProtocolsOf(data)), HeaderNames(lines));
  }

  /** The loop over `a + b` is the loop over `a` followed by the loop over `b`. */
  lemma {:induction false} SplitRunAppend(st: SplitState, a: seq<string>, b: seq<string>)
    ensures SplitRun(st, a + b) == SplitRun(SplitRun(st, a), b)
    decreases |b|
  {
    if b == [] {
      assert a + b == a;
    } else {
      var init := b[..|b| - 1];
      SplitRunAppend(st, a, init);
      assert (a + b)[..|a + b| - 1] == a + init;
    }
  }

  /** Lines before the first header, such as another protocol's block, open nothing and keep nothing. */
  lemma {:induction false} PreambleIgnored(a: seq<string>, b: seq<string>)
    requires forall k | 0 <= k < |a| :: !OpensBlock(a[k])
    ensures SplitRun(Unsplit, a) == Unsplit
    ensures SplitRun(Unsplit, a + b) == SplitRun(Unsplit, b)
    decreases |a|
  {
    if a != [] {
      var init := a[..|a| - 1];
      PreambleIgnored(init, b);
    }
    SplitRunAppend(Unsplit, a, b);
  }

  /** A line that is blank once trimmed changes nothing: it is neither a header nor added to a block. */
  lemma {:induction false} BlankLineIgnored(st: SplitState, raw: string)
    requires TrimSpace(TrimRightCR(raw)) == ""
    ensures SplitStep(st, raw) == st
  {
    HeaderShape(TrimRightCR(raw));
  }

  // ---------------------------------------------------------------------------------------------
  // The blocks of a dump, read front to back

  /** Whether a line joins the open block: it is not a banner, not a header and not blank. */
  predicate JoinsBlock(raw: string) {
    var line := TrimRightCR(raw);
    !IsProtocolBanner(line) && !IsBGPHeaderLine(line) && TrimSpace(line) != ""
  }

  /**
   * The lines after a header that belong to its block: those up to the next line that opens a block,
   * leaving out banners and blank lines, each without its carriage return.
   */
  function BlockBody(lines: seq<string>): seq<string>
    decreases |lines|
  {
    if lines == [] || OpensBlock(lines[0]) then []
    else (if JoinsBlock(lines[0]) then [TrimRightCR(lines[0])] else []) + BlockBody(lines[1..])
  }

  /** The blocks of a dump: one for each line that opens a block, made of that line and its body. */
  function Blocks(lines: seq<string>): (blocks: seq<seq<string>>)
    ensures forall i | 0 <= i < |blocks| :: blocks[i] != [] && IsBGPHeaderLine(blocks[i][0])
    decreases |lines|
  {
    if lines == [] then []
    else if OpensBlock(lines[0]) then [[TrimRightCR(lines[0])] + BlockBody(lines[1..])] + Blocks(lines[1..])
    else Blocks(lines[1..])
  }

  /** The name a line contributes to `HeaderNames`: its protocol when it opens a block. */
  function HeaderNameOf(raw: string): seq<string> {
    if OpensBlock(raw) then [HeaderName(TrimRightCR(raw))] else []
  }

  /** `HeaderNames` read from the front. */
  lemma {:induction false} HeaderNamesCons(x: string, rest: seq<string>)
    ensures HeaderNames([x] + rest) == HeaderNameOf(x) + HeaderNames(rest)
    decreases |rest|
  {
    if rest == [] {
      assert ([x] + rest)[..0] == [];
    } else {
      var init := rest[..|rest| - 1];
      HeaderNamesCons(x, init);
      assert ([x] + rest)[..|rest|] == [x] + init;
    }
  }

  /** Each block starts with a header line, and the `i`-th block's header names the `i`-th protocol of `names`. */
  predicate HeadedBy(blocks: seq<seq<string>>, names: seq<string>) {
    && |blocks| == |names|
    && forall i | 0 <= i < |blocks| :: blocks[i] != [] && IsBGPHeaderLine(blocks[i][0]) && HeaderName(blocks[i][0]) == names[i]
  }

  /** There is one block per line that opens one, in order, and each starts with that line. */
  lemma {:induction false} BlocksHeaders(lines: seq<string>)
    ensures HeadedBy(Blocks(lines), HeaderNames(lines))
    decreases |lines|
  {
    if lines != [] {
      var x, rest := lines[0], lines[1..];
      assert lines == [x] + rest;
      BlocksHeaders(rest);
      HeaderNamesCons(x, rest);
      if OpensBlock(x) {
        HeadedByCons(Blocks(lines)[0], Blocks(rest), HeaderNames(rest));
      }
    }
  }

  lemma {:induction false} HeadedByCons(b: seq<string>, blocks: seq<seq<string>>, names: seq<string>)
    requires b != [] && IsBGPHeaderLine(b[0]) && HeadedBy(blocks, names)
    ensures HeadedBy([b] + blocks, [HeaderName(b[0])] + names)
  {
    var bs, ns := [b] + blocks, [HeaderName(b[0])] + names;
    forall i | 1 <= i < |bs|
      ensures bs[i] != [] && IsBGPHeaderLine(bs[i][0]) && HeaderName(bs[i][0]) == ns[i]
    {
      assert bs[i] == blocks[i - 1] && ns[i] == names[i - 1];
    }
  }

  /** The record `ParseBGPProtocol` makes of a block's lines. */
  function RecordOf(block: seq<string>): BgpProtocol {
    ProtocolOf(Join(block, "\n"))
  }

  /** The record of a block, when it is valid. */
  function KeptBlock(block: seq<string>): seq<BgpProtocol> {
    if RecordOf(block).IsValid() then [RecordOf(block)] else []
  }

  /** The valid records of some blocks, in their order. */
  function KeptRecords(blocks: seq<seq<string>>): seq<BgpProtocol>
    decreases |blocks|
  {
    if blocks == [] then [] else KeptBlock(blocks[0]) + KeptRecords(blocks[1..])
  }

  /** The open block once `body` has been added to it; with no block open nothing changes. */
  function Absorb(st: SplitState, body: seq<string>): SplitState {
    if st.inBlock then st.(currentBlock := st.currentBlock + body) else st
  }

  lemma {:induction false} FlushBlockKept(st: SplitState)
    ensures FlushBlock(st) == st.results + (if st.inBlock && |st.currentBlock| > 0 then KeptBlock(st.currentBlock) else [])
  {
  }

  /** The loop over `[x] + rest` is one step on `x` followed by the loop over `rest`. */
  lemma {:induction false} SplitRunCons(st: SplitState, x: string, rest: seq<string>)
    ensures SplitRun(st, [x] + rest) == SplitRun(SplitStep(st, x), rest)
  {
    SplitRunAppend(st, [x], rest);
    assert [x][..0] == [];
  }

  /** What one more line in front adds to a body: nothing after a header, the line when it joins a block. */
  function BodyStep(x: string, body: seq<string>): seq<string> {
    if OpensBlock(x) then [] else (if JoinsBlock(x) then [TrimRightCR(x)] else []) + body
  }

  /** What one more line in front adds to the kept records: the record of its block when it opens one. */
  function KeptStep(x: string, body: seq<string>, kept: seq<BgpProtocol>): seq<BgpProtocol> {
    if OpensBlock(x) then KeptBlock([TrimRightCR(x)] + body) + kept else kept
  }

  lemma {:induction false} BlocksCons(lines: seq<string>)
    requires lines != []
    ensures BlockBody(lines) == BodyStep(lines[0], BlockBody(lines[1..]))
    ensures KeptRecords(Blocks(lines)) == KeptStep(lines[0], BlockBody(lines[1..]), KeptRecords(Blocks(lines[1..])))
  {
  }

  /**
   * From any state whose open block is non-empty, the loop over `lines` followed by the final flush
   * keeps what the state would keep with the first body of `lines` added to its open block, then the
   * valid records of the blocks of `lines`.
   */
  lemma {:induction false} FlushRun(st: SplitState, lines: seq<string>)
    requires st.inBlock ==> st.currentBlock != []
    ensures FlushBlock(SplitRun(st, lines)) == FlushBlock(Absorb(st, BlockBody(lines))) + KeptRecords(Blocks(lines))
    decreases |lines|
  {
    if lines == [] {
      assert Absorb(st, []) == st by { assert st.currentBlock + [] == st.currentBlock; }
    } else {
      var x, rest := lines[0], lines[1..];
      assert lines == [x] + rest;
      SplitRunCons(st, x, rest);
      FlushRun(SplitStep(st, x), rest);
      BlocksCons(lines);
      FlushStep(st, x, BlockBody(rest), KeptRecords(Blocks(rest)));
    }
  }

  /** One line in front: the step of the loop agrees with the front-to-back reading of the blocks. */
  lemma {:induction false} FlushStep(st: SplitState, x: string, body: seq<string>, kept: seq<BgpProtocol>)
    requires st.inBlock ==> st.currentBlock != []
    ensures SplitStep(st, x).inBlock ==> SplitStep(st, x).currentBlock != []
    ensures FlushBlock(Absorb(SplitStep(st, x), body)) + kept
         == FlushBlock(Absorb(st, BodyStep(x, body))) + KeptStep(x, body, kept)
  {
    var line := TrimRightCR(x);
    if IsProtocolBanner(line) {
      SkippedLine(st, x, body, kept);
    } else if IsBGPHeaderLine(line) {
      assert OpensBlock(x);
      HeaderFlush(st, line, body, kept);
    } else if st.inBlock && TrimSpace(line) != "" {
      JoinedLine(st, x, body, kept);
    } else {
      SkippedLine(st, x, body, kept);
    }
  }

  /** A line the loop passes over leaves the state as it is and adds nothing to the blocks read so far. */
  lemma {:induction false} SkippedLine(st: SplitState, x: string, body: seq<string>, kept: seq<BgpProtocol>)
    requires SplitStep(st, x) == st && !OpensBlock(x)
    requires st.inBlock ==> !JoinsBlock(x)
    ensures FlushBlock(Absorb(SplitStep(st, x), body)) + kept
         == FlushBlock(Absorb(st, BodyStep(x, body))) + KeptStep(x, body, kept)
  {
    assert KeptStep(x, body, kept) == kept;
    if st.inBlock {
      assert BodyStep(x, body) == body;
    }
  }

  /** A line that joins the open block goes in front of the rest of its body. */
  lemma {:induction false} JoinedLine(st: SplitState, x: string, body: seq<string>, kept: seq<BgpProtocol>)
    requires st.inBlock && JoinsBlock(x)
    ensures FlushBlock(Absorb(SplitStep(st, x), body)) + kept
         == FlushBlock(Absorb(st, BodyStep(x, body))) + KeptStep(x, body, kept)
  {
    JoinedState(st, x, body);
    assert !OpensBlock(x);
  }

  lemma {:induction false} JoinedState(st: SplitState, x: string, body: seq<string>)
    requires st.inBlock && JoinsBlock(x)
    ensures Absorb(SplitStep(st, x), body) == Absorb(st, BodyStep(x, body))
  {
    JoinedStep(st, x);
    JoinedBody(x, body);
    AbsorbAppend(st, [TrimRightCR(x)], body);
  }

  lemma {:induction false} JoinedStep(st: SplitState, x: string)
    requires st.inBlock && JoinsBlock(x)
    ensures SplitStep(st, x) == st.(currentBlock := st.currentBlock + [TrimRightCR(x)])
  {
  }

  lemma {:induction false} JoinedBody(x: string, body: seq<string>)
    requires JoinsBlock(x)
    ensures BodyStep(x, body) == [TrimRightCR(x)] + body
  {
  }

  lemma {:induction false} AbsorbAppend(st: SplitState, a: seq<string>, b: seq<string>)
    requires st.inBlock
    ensures Absorb(st.(currentBlock := st.currentBlock + a), b) == Absorb(st, a + b)
  {
    assert st.currentBlock + a + b == st.currentBlock + (a + b);
  }

  /** A header flushes the open block and opens its own, whose body comes after it. */
  lemma {:induction false} HeaderFlush(st: SplitState, line: string, body: seq<string>, tail: seq<BgpProtocol>)
    ensures FlushBlock(Absorb(SplitState(FlushBlock(st), [line], true), body)) + tail
         == FlushBlock(Absorb(st, [])) + (KeptBlock([line] + body) + tail)
  {
    var r := FlushBlock(st);
    var begun := Absorb(SplitState(r, [line], true), body);
    AbsorbOpened(r, line, body);
    FlushOpened(r, [line] + body);
    assert FlushBlock(begun) == r + KeptBlock([line] + body);
    AbsorbNothing(st);
    Regroup(r, KeptBlock([line] + body), tail);
  }

  lemma {:induction false} Regroup(a: seq<BgpProtocol>, b: seq<BgpProtocol>, c: seq<BgpProtocol>)
    ensures (a + b) + c == a + (b + c)
  {
  }

  lemma {:induction false} AbsorbOpened(results: seq<BgpProtocol>, line: string, body: seq<string>)
    ensures Absorb(SplitState(results, [line], true), body) == SplitState(results, [line] + body, true)
  {
  }

  lemma {:induction false} AbsorbNothing(st: SplitState)
    ensures Absorb(st, []) == st
  {
    assert st.currentBlock + [] == st.currentBlock;
  }

  /** Flushing an open, non-empty block appends its record when valid. */
  lemma {:induction false} FlushOpened(results: seq<BgpProtocol>, block: seq<string>)
    requires block != []
    ensures FlushBlock(SplitState(results, block, true)) == results + KeptBlock(block)
  {
  }

  /**
   * What `ParseBGPProtocols` returns, block by block: for each line that opens a block, in order, the
   * record of that block exactly when it is valid.
   */
  lemma {:induction false} ProtocolsOfBlocks(data: string)
    ensures ProtocolsOf(data) == KeptRecords(Blocks(SplitOn(data, "\n")))
  {
    var lines := SplitOn(data, "\n");
    FlushRun(Unsplit, lines);
    assert Absorb(Unsplit, BlockBody(lines)) == Unsplit;
  }

  /** The records of some blocks, one per block. */
  function Records(blocks: seq<seq<string>>): seq<BgpProtocol> {
    MapSeq(blocks, RecordOf)
  }

  /** `f` applied to each entry of `xs`, in order. */
  function MapSeq<A, B>(xs: seq<A>, f: A -> B): (ys: seq<B>)
    ensures |ys| == |xs|
    ensures forall i | 0 <= i < |xs| :: ys[i] == f(xs[i])
    decreases |xs|
  {
    if xs == [] then [] else [f(xs[0])] + MapSeq(xs[1..], f)
  }

  /** The valid ones of some records, in their order. */
  function ValidOnly(ps: seq<BgpProtocol>): seq<BgpProtocol>
    decreases |ps|
  {
    if ps == [] then [] else (if ps[0].IsValid() then [ps[0]] else []) + ValidOnly(ps[1..])
  }

  /** A record survives the filter exactly when it is one of the records and valid. */
  lemma {:induction false} ValidOnlySpec(ps: seq<BgpProtocol>)
    ensures forall p :: p in ValidOnly(ps) <==> p in ps && p.IsValid()
    ensures |ValidOnly(ps)| <= |ps|
    decreases |ps|
  {
    if ps != [] {
      ValidOnlySpec(ps[1..]);
      assert ps == [ps[0]] + ps[1..];
    }
  }

  /** Keeping the valid record of each block is filtering the blocks' records. */
  lemma {:induction false} KeptRecordsFilter(blocks: seq<seq<string>>)
    ensures KeptRecords(blocks) == ValidOnly(Records(blocks))
    decreases |blocks|
  {
    if blocks != [] {
      KeptRecordsFilter(blocks[1..]);
      RecordsCons(blocks);
      ValidOnlyCons(Records(blocks), RecordOf(blocks[0]), KeptRecords(blocks[1..]));
    }
  }

  lemma {:induction false} RecordsCons(blocks: seq<seq<string>>)
    requires blocks != []
    ensures Records(blocks) != [] && Records(blocks)[0] == RecordOf(blocks[0])
    ensures Records(blocks)[1..] == Records(blocks[1..])
  {
    MapSeqCons(blocks, RecordOf);
  }

  lemma {:induction false} MapSeqCons<A, B>(xs: seq<A>, f: A -> B)
    requires xs != []
    ensures MapSeq(xs, f)[1..] == MapSeq(xs[1..], f)
  {
  }

  lemma {:induction false} ValidOnlyCons(ps: seq<BgpProtocol>, p: BgpProtocol, tail: seq<BgpProtocol>)
    requires ps != [] && ps[0] == p && ValidOnly(ps[1..]) == tail
    ensures ValidOnly(ps) == (if p.IsValid() then [p] else []) + tail
  {
  }

  /**
   * The records `ParseBGPProtocols` returns are exactly the valid records of the dump's blocks: one
   * block's record is returned if and only if it is valid, and never more records than blocks.
   */
  lemma {:induction false} ProtocolsOfComplete(data: string)
    ensures var blocks := Blocks(SplitOn(data, "\n"));
      && (forall p :: p in ProtocolsOf(data) <==> p in Records(blocks) && p.IsValid())
      && |ProtocolsOf(data)| <= |blocks|
  {
    var blocks := Blocks(SplitOn(data, "\n"));
    ProtocolsOfBlocks(data);
    KeptRecordsFilter(blocks);
    ValidOnlySpec(Records(blocks));
  }

  /** `ParseBGPProtocols`. */
  method ParseBGPProtocols(data: string) returns (results: seq<BgpProtocol>)
    ensures results == ProtocolsOf(data)
    ensures forall k | 0 <= k < |results| :: results[k].IsValid()
    ensures IsSubsequence(Names(results), HeaderNames(SplitOn(data, "\n")))
    ensures results == KeptRecords(Blocks(SplitOn(data, "\n")))
  {
    results := [];
    var currentBlock: seq<string> := [];
    var inBlock := false;
    var lines := SplitOn(data, "\n");
    for i := 0 to |lines|
      invariant SplitState(results, currentBlock, inBlock) == SplitRun(Unsplit, lines[..i])
    {
      SplitRunAt(lines, i);
      var line := TrimRightCR(lines[i]);
      if HasPrefix(line, "BIRD") || HasPrefix(line, "Access restricted") {
        continue;
      }
      if IsBGPHeaderLine(line) {
        if inBlock && |currentBlock| > 0 {
          var p := ParseBGPProtocol(Join(currentBlock, "\n"));
          if p.IsValid() {
            results := results + [p];
          }
        }
        currentBlock := [line];
        inBlock := true;
        continue;
      }
      if inBlock && TrimSpace(line) != "" {
        currentBlock := currentBlock + [line];
      }
    }
    assert lines[..|lines|] == lines;
    if inBlock && |currentBlock| > 0 {
      var p := ParseBGPProtocol(Join(currentBlock, "\n"));
      if p.IsValid() {
        results := results + [p];
      }
    }
    ProtocolsOfSpec(data);
    ProtocolsOfBlocks(data);
  }
}
