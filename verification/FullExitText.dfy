/** Encodings as characters: how JSON text is written, the length limits on it, and a pinned state whose fingerprint
    is longer than the parser takes. */
module FullExitText {
  import opened Domain
  import opened Decimal
  import opened FullExitBins
  import opened FullExitCodec

  // Rendering

  function HexDigit(n: nat): char
    requires n < 16
  {
    "0123456789abcdef"[n]
  }

  /** One character inside a JSON string. */
  function EscapeChar(c: char): (r: string)
    ensures 1 <= |r| <= 6
  {
    if c == '"' || c == '\\' then ['\\', c]
    else if c == '\n' then "\\n"
    else if c == '\r' then "\\r"
    else if c == '\t' then "\\t"
    else if c == 8 as char then "\\b"
    else if c == 12 as char then "\\f"
    else if c < ' ' then "\\u00" + [HexDigit(c as int / 16), HexDigit(c as int % 16)]
    else [c]
  }

  function Escape(s: string): (r: string)
    ensures |s| <= |r| <= 6 * |s|
  {
    if s == [] then [] else Escape(s[..|s| - 1]) + EscapeChar(s[|s| - 1])
  }

  function Blanks(n: nat): (r: string)
    ensures |r| == n
  {
    seq(n, i => ' ')
  }

  function Chars(t: Text): string
    decreases t
  {
    match t
    case Plain(chars) => chars
    case Rendered(json, layout) => Render(json) + Blanks(layout)
  }

  function Render(j: Json): string
    decreases j, 1
  {
    match j
    case JText(text) => "\"" + Escape(Chars(text)) + "\""
    case JNumber(n) => if n < 0 then "-" + Print(-n) else Print(n)
    case JArray(items) => "[" + Joined(j, |items|) + "]"
    case JOther(_) => "null"
  }

  /** The first `n` items of an array, separated by commas. */
  function Joined(j: Json, n: nat): string
    requires j.JArray? && n <= |j.items|
    decreases j, 0, n
  {
    if n == 0 then "" else Joined(j, n - 1) + (if n == 1 then "" else ",") + Render(j.items[n - 1])
  }

  /** The limits as the parsers check them. */
  function TextLimits(): Lengths {
    Lengths((t: Text) => 1 <= |Chars(t)| <= 4_096, (t: Text) => 1 <= |Chars(t)| <= 1_000_000)
  }

  // Lengths

  lemma PlainLength(s: string)
    ensures |s| + 2 <= |Render(JText(Plain(s)))| <= 6 * |s| + 2
  {
  }

  lemma {:induction false} JoinedLength(j: Json, n: nat, bound: nat)
    requires j.JArray? && n <= |j.items|
    requires forall i :: 0 <= i < n ==> |Render(j.items[i])| <= bound
    ensures |Joined(j, n)| <= n * (bound + 1)
  {
    hide Render;
    if n > 0 {
      JoinedLength(j, n - 1, bound);
      assert n * (bound + 1) == (n - 1) * (bound + 1) + bound + 1;
    }
  }

  lemma {:induction false} JoinedHolds(j: Json, n: nat, i: nat)
    requires j.JArray? && i < n <= |j.items|
    ensures |Joined(j, n)| >= |Render(j.items[i])|
  {
    hide Render;
    if i < n - 1 {
      JoinedHolds(j, n - 1, i);
    }
  }

  lemma ArrayHolds(j: Json, i: nat)
    requires j.JArray? && i < |j.items|
    ensures |Render(j)| >= |Render(j.items[i])|
  {
    JoinedHolds(j, |j.items|, i);
  }

  lemma {:induction false} PrintLength(n: nat, digits: nat)
    requires digits > 0 && n < Power(digits)
    ensures |Print(n)| <= digits
  {
    if n >= 10 {
      assert digits > 1;
      PrintLength(n / 10, digits - 1);
    }
  }

  function Power(n: nat): (r: nat)
    ensures r > 0
  {
    if n == 0 then 1 else 10 * Power(n - 1)
  }

  lemma SafeLength(n: nat)
    requires n <= MAX_SAFE
    ensures |Render(JNumber(n))| <= 16
  {
    assert Power(4) == 10_000 && Power(8) == 100_000_000;
    assert Power(12) == 10_000 * Power(8) && Power(16) == 10_000 * Power(12);
    PrintLength(n, 16);
  }

  /** The text of a workflow identity always keeps to the limit on encodings. */
  lemma WorkflowWithin(w: Workflow)
    requires NormalizeWorkflow(TextLimits(), InputOfWorkflow(w)) == Some(w)
    ensures TextLimits().isEncoding(WorkflowText(w))
  {
    var t := WorkflowText(w);
    forall i | 0 <= i < |t.json.items|
      ensures |Render(t.json.items[i])| <= 25_000
    {
      ItemLength(w, i);
    }
    JoinedLength(t.json, |t.json.items|, 25_000);
    assert Chars(t) == Render(t.json) + Blanks(0);
    assert Render(t.json) == "[" + Joined(t.json, |t.json.items|) + "]";
  }

  lemma ItemLength(w: Workflow, i: nat)
    requires NormalizeWorkflow(TextLimits(), InputOfWorkflow(w)) == Some(w) && i < 9
    ensures |Render(WorkflowText(w).json.items[i])| <= 25_000
  {
    hide Escape, Lower;
    PlainLength(WORKFLOW_TAG);
    PlainLength(w.account);
    PlainLength(w.pair);
    PlainLength(w.router);
    PlainLength(w.recipient);
    SafeLength(1);
    SafeLength(w.chainId);
  }

  /** With the limits as they are, every created workflow key reads back. */
  lemma WorkflowReadsBack(i: WorkflowInput)
    requires CreateWorkflowKey(TextLimits(), i).Some?
    ensures ParseWorkflowKey(TextLimits(), CreateWorkflowKey(TextLimits(), i).value) == NormalizeWorkflow(TextLimits(), i)
  {
    hide NormalizeWorkflow, ParseWorkflowKey, Chars;
    NormalizedWorkflowFixed(TextLimits(), i);
    WorkflowWithin(NormalizeWorkflow(TextLimits(), i).value);
    WorkflowRoundTrip(TextLimits(), i);
  }

  // A state too long to be read back

  function Zeros(n: nat): (r: string)
    ensures |r| == n && forall i :: 0 <= i < n ==> r[i] == '0'
  {
    seq(n, i => '0')
  }

  const ADDRESS := "0x" + Zeros(40)
  const IDENTITY := Workflow(ADDRESS, 1, Plain("main"), Plain("one"), ADDRESS, ADDRESS, ADDRESS)

  lemma ZerosNormal(digits: nat)
    ensures NormalizeHex(JText(Plain("0x" + Zeros(digits))), digits) == Some("0x" + Zeros(digits))
  {
    var s := "0x" + Zeros(digits);
    assert IsHex(s, digits);
    assert Lower(s) == s;
  }

  lemma IdentityNormal()
    ensures NormalizeWorkflow(TextLimits(), InputOfWorkflow(IDENTITY)) == Some(IDENTITY)
  {
    hide NormalizeHex;
    ZerosNormal(40);
    assert Chars(Plain("main")) == "main" && Chars(Plain("one")) == "one";
  }

  lemma IdentityParses()
    ensures ParseWorkflowKey(TextLimits(), WorkflowText(IDENTITY)) == Some(IDENTITY)
  {
    hide NormalizeWorkflow, Chars;
    IdentityNormal();
    WorkflowWithin(IDENTITY);
    ParsesOwnText(TextLimits(), IDENTITY);
  }

  lemma {:induction false} JoinedAtLeast(j: Json, n: nat, bound: nat)
    requires j.JArray? && n <= |j.items|
    requires forall i :: 0 <= i < n ==> |Render(j.items[i])| >= bound
    ensures |Joined(j, n)| >= n * bound
  {
    hide Render;
    if n > 0 {
      JoinedAtLeast(j, n - 1, bound);
      assert n * bound == (n - 1) * bound + bound;
    }
  }

  lemma RowLength(b: Bin)
    ensures |Render(EncodeBin(b))| >= 9
  {
    hide Print, Escape;
    var row := EncodeBin(b);
    PlainLength(Print(b.id));
    PlainLength(Print(b.balance));
    assert Joined(row, 1) == Joined(row, 0) + Render(row.items[0]);
    assert Joined(row, 2) == Joined(row, 1) + "," + Render(row.items[1]);
  }

  /** The text of a state with that many bins is over the limit on encodings, whatever their ids and balances are. */
  lemma ManyBinsTooLong(s: Snapshot)
    requires |s.bins| > 111_111
    ensures !TextLimits().isEncoding(StateText(s))
  {
    hide EncodeBin, Render;
    var t := StateText(s);
    var rows := t.json.items[5];
    forall i | 0 <= i < |rows.items|
      ensures |Render(rows.items[i])| >= 9
    {
      RowLength(s.bins[i]);
    }
    JoinedAtLeast(rows, |rows.items|, 9);
    ArrayHolds(t.json, 5);
    BracketsAdded(rows);
    assert Chars(t) == Render(t.json) + Blanks(0);
  }

  lemma BracketsAdded(j: Json)
    requires j.JArray?
    ensures |Render(j)| == |Joined(j, |j.items|)| + 2
  {
  }

  /** Bins 0 to `n` - 1, each with a balance of one. */
  function UnitBins(n: nat): (bins: seq<Bin>)
    requires n <= UINT24 + 1
    ensures |bins| == n && Normal(bins)
  {
    seq(n, i requires 0 <= i < n => Bin(i, 1))
  }

  const MANY := Snapshot(UnitBins(120_000), "0x" + Zeros(64), 0, 0, WorkflowText(IDENTITY))

  /** A state whose fingerprint is written without complaint and cannot be read back: it has 120000 bins with a balance
      of one each. */
  lemma LongFingerprint()
    ensures var t := Fingerprint(TextLimits(), InputOfSnapshot(MANY));
            t.Some? && ParseFingerprint(TextLimits(), t.value).None?
  {
    hide CreateSnapshot, ParseFingerprint, StateText, NormalizeHex, ParseWorkflowKey, InputOfSnapshot, TextLimits;
    IdentityParses();
    ZerosNormal(64);
    SnapshotFixed(TextLimits(), MANY);
    ManyBinsTooLong(MANY);
    FingerprintRoundTrip(TextLimits(), InputOfSnapshot(MANY));
  }
}
