/** Canonical encodings of full-exit workflows, pinned states and batch settings as JSON text. */
module FullExitCodec {
  import opened Domain
  import opened Decimal
  import opened FullExitBins

  /** A string: the text of a JSON array in some layout, or any other characters. Layout 0 is what the encoder
      writes; parsing does not see the layout. */
  datatype Text = Plain(chars: string) | Rendered(json: Json, layout: nat)

  /** Parsed JSON as far as the parsers look at it. */
  datatype Json = JText(text: Text) | JNumber(n: int) | JArray(items: seq<Json>) | JOther(kind: nat)

  /** The two length limits on strings: 1 to 4,096 characters for names, 1 to 1,000,000 for encodings. */
  datatype Lengths = Lengths(isName: Text -> bool, isEncoding: Text -> bool)

  const WORKFLOW_TAG := "feather-full-exit-workflow"
  const STATE_TAG := "feather-full-exit-state"
  const SETTINGS_TAG := "feather-full-exit-batch"

  function ParseArray(k: Lengths, t: Text): Option<seq<Json>> {
    if !k.isEncoding(t) || t.Plain? || !t.json.JArray? then None else Some(t.json.items)
  }

  // Addresses and hashes

  predicate IsHexDigit(c: char) {
    '0' <= c <= '9' || 'a' <= c <= 'f' || 'A' <= c <= 'F'
  }

  function LowerChar(c: char): char {
    if 'A' <= c <= 'Z' then (c as int + 32) as char else c
  }

  function Lower(s: string): (r: string)
    ensures |r| == |s|
  {
    seq(|s|, i requires 0 <= i < |s| => LowerChar(s[i]))
  }

  predicate IsHex(s: string, digits: nat) {
    |s| == digits + 2 && s[0] == '0' && s[1] == 'x' && forall i :: 2 <= i < |s| ==> IsHexDigit(s[i])
  }

  function NormalizeHex(v: Json, digits: nat): Option<string> {
    if v.JText? && v.text.Plain? && IsHex(v.text.chars, digits) then Some(Lower(v.text.chars)) else None
  }

  /** Lower-case hex is fixed by normalization. */
  lemma NormalizedHexFixed(v: Json, digits: nat)
    requires NormalizeHex(v, digits).Some?
    ensures NormalizeHex(JText(Plain(NormalizeHex(v, digits).value)), digits) == NormalizeHex(v, digits)
  {
    var s := Lower(v.text.chars);
    assert Lower(s) == s;
  }

  function Name(k: Lengths, v: Json): Option<Text> {
    if v.JText? && k.isName(v.text) then Some(v.text) else None
  }

  function SafeAtLeast(v: Json, minimum: int): Option<int> {
    if v.JNumber? && minimum <= v.n <= MAX_SAFE then Some(v.n) else None
  }

  // Workflows

  datatype Workflow = Workflow(account: string, chainId: int, environment: Text, epoch: Text, pair: string,
                               router: string, recipient: string)

  datatype WorkflowInput = WorkflowInput(account: Json, chainId: Json, environment: Json, epoch: Json, pair: Json,
                                         router: Json, recipient: Json)

  function NormalizeWorkflow(k: Lengths, i: WorkflowInput): Option<Workflow> {
    var account, recipient := NormalizeHex(i.account, 40), NormalizeHex(i.recipient, 40);
    var chainId, epoch, environment := SafeAtLeast(i.chainId, 1), Name(k, i.epoch), Name(k, i.environment);
    var pair, router := NormalizeHex(i.pair, 40), NormalizeHex(i.router, 40);
    if account.None? || recipient != account || chainId.None? || epoch.None? || environment.None? || pair.None?
       || router.None?
    then None
    else
      Some(Workflow(account.value, chainId.value, environment.value, epoch.value, pair.value, router.value,
                    recipient.value))
  }

  function WorkflowText(w: Workflow): Text {
    Rendered(JArray([JText(Plain(WORKFLOW_TAG)), JNumber(1), JText(Plain(w.account)), JNumber(w.chainId),
                     JText(w.environment), JText(w.epoch), JText(Plain(w.pair)), JText(Plain(w.router)),
                     JText(Plain(w.recipient))]), 0)
  }

  function CreateWorkflowKey(k: Lengths, i: WorkflowInput): Option<Text> {
    var w := NormalizeWorkflow(k, i);
    if w.None? then None else Some(WorkflowText(w.value))
  }

  function InputOfWorkflow(w: Workflow): WorkflowInput {
    WorkflowInput(JText(Plain(w.account)), JNumber(w.chainId), JText(w.environment), JText(w.epoch), JText(Plain(w.pair)),
                  JText(Plain(w.router)), JText(Plain(w.recipient)))
  }

  function ParseWorkflowKey(k: Lengths, t: Text): Option<Workflow> {
    var p := ParseArray(k, t);
    if p.None? || |p.value| != 9 || p.value[0] != JText(Plain(WORKFLOW_TAG)) || p.value[1] != JNumber(1) then None
    else
      var w := NormalizeWorkflow(k, WorkflowInput(p.value[2], p.value[3], p.value[4], p.value[5], p.value[6],
                                                  p.value[7], p.value[8]));
      if w.None? || CreateWorkflowKey(k, InputOfWorkflow(w.value)) != Some(t) then None else w
  }

  lemma NormalizedWorkflowFixed(k: Lengths, i: WorkflowInput)
    requires NormalizeWorkflow(k, i).Some?
    ensures NormalizeWorkflow(k, InputOfWorkflow(NormalizeWorkflow(k, i).value)) == NormalizeWorkflow(k, i)
  {
    hide NormalizeHex;
    NormalizedHexFixed(i.account, 40);
    NormalizedHexFixed(i.pair, 40);
    NormalizedHexFixed(i.router, 40);
  }

  /** A created key parses to the normalized identity exactly when it is within the length bound. */
  lemma WorkflowRoundTrip(k: Lengths, i: WorkflowInput)
    requires CreateWorkflowKey(k, i).Some?
    ensures var t := CreateWorkflowKey(k, i).value;
            ParseWorkflowKey(k, t) == if k.isEncoding(t) then NormalizeWorkflow(k, i) else None
  {
    hide NormalizeHex, Name, SafeAtLeast;
    NormalizedWorkflowFixed(k, i);
    var w := NormalizeWorkflow(k, i).value;
    ParsesOwnText(k, w);
  }

  lemma ParsesOwnText(k: Lengths, w: Workflow)
    requires NormalizeWorkflow(k, InputOfWorkflow(w)) == Some(w)
    ensures ParseWorkflowKey(k, WorkflowText(w)) == if k.isEncoding(WorkflowText(w)) then Some(w) else None
  {
    hide NormalizeWorkflow;
  }

  /** Only canonical keys parse: encoding the result gives back the very text. */
  lemma WorkflowCanonical(k: Lengths, t: Text)
    requires ParseWorkflowKey(k, t).Some?
    ensures CreateWorkflowKey(k, InputOfWorkflow(ParseWorkflowKey(k, t).value)) == Some(t)
    ensures k.isEncoding(t) && t == WorkflowText(ParseWorkflowKey(k, t).value)
  {
    hide NormalizeHex, Name, SafeAtLeast, NormalizeWorkflow;
    var p := ParseArray(k, t).value;
    NormalizedWorkflowFixed(k, WorkflowInput(p[2], p[3], p[4], p[5], p[6], p[7], p[8]));
  }

  // Bins

  function EncodeBin(b: Bin): Json {
    JArray([JText(Plain(Print(b.id))), JText(Plain(Print(b.balance)))])
  }

  function EncodeBins(bins: seq<Bin>): (r: seq<Json>)
    ensures |r| == |bins|
    ensures forall i :: 0 <= i < |bins| ==> r[i] == EncodeBin(bins[i])
  {
    seq(|bins|, i requires 0 <= i < |bins| => EncodeBin(bins[i]))
  }

  predicate IsRow(v: Json) {
    && v.JArray? && |v.items| == 2 && v.items[0].JText? && v.items[1].JText?
    && v.items[0].text.Plain? && v.items[1].text.Plain?
    && AllDigits(v.items[0].text.chars) && AllDigits(v.items[1].text.chars)
  }

  function RowInput(v: Json): BinInput
    requires IsRow(v)
  {
    BinInput(Digits(v.items[0].text.chars), Digits(v.items[1].text.chars))
  }

  function DecodeBins(rows: seq<Json>): Option<seq<Bin>> {
    if !(forall i :: 0 <= i < |rows| ==> IsRow(rows[i])) then None
    else
      var bins := Normalize(seq(|rows|, i requires 0 <= i < |rows| => RowInput(rows[i])), false);
      if bins.None? || EncodeBins(bins.value) != rows then None else bins
  }

  lemma EncodedRow(b: Bin)
    ensures IsRow(EncodeBin(b)) && RowInput(EncodeBin(b)) == BinInput(Digits(Print(b.id)), Digits(Print(b.balance)))
  {
  }

  /** Bins decode from their encoding, and nothing but the encoding of normal bins decodes. */
  lemma BinsRoundTrip(bins: seq<Bin>)
    requires Normal(bins)
    ensures DecodeBins(EncodeBins(bins)) == Some(bins)
  {
    hide IsRow, RowInput, EncodeBin, Normalize;
    var rows := EncodeBins(bins);
    forall i | 0 <= i < |rows|
      ensures IsRow(rows[i]) && RowInput(rows[i]) == TextOf(bins)[i]
    {
      EncodedRow(bins[i]);
    }
    assert (seq(|rows|, i requires 0 <= i < |rows| => RowInput(rows[i]))) == TextOf(bins);
    ReadsBack(bins);
    NormalFixed(TextOf(bins), bins, false);
  }

  lemma BinsCanonical(rows: seq<Json>)
    requires DecodeBins(rows).Some?
    ensures EncodeBins(DecodeBins(rows).value) == rows && Normal(DecodeBins(rows).value)
  {
    hide Normalize, IsRow;
    NormalizeLists(seq(|rows|, i requires 0 <= i < |rows| => RowInput(rows[i])), false);
  }

  lemma EncodeBinsInjective(a: seq<Bin>, b: seq<Bin>)
    requires EncodeBins(a) == EncodeBins(b)
    ensures a == b
  {
    assert |a| == |b|;
    forall i | 0 <= i < |a|
      ensures a[i] == b[i]
    {
      assert EncodeBins(a)[i] == EncodeBins(b)[i];
      EncodeBinInjective(a[i], b[i]);
    }
  }

  lemma EncodeBinInjective(a: Bin, b: Bin)
    requires EncodeBin(a) == EncodeBin(b)
    ensures a == b
  {
    assert EncodeBin(a).items[0] == EncodeBin(b).items[0] && EncodeBin(a).items[1] == EncodeBin(b).items[1];
    ParsePrint(a.id);
    ParsePrint(b.id);
    ParsePrint(a.balance);
    ParsePrint(b.balance);
  }

  // Pinned states

  datatype SnapshotInput = SnapshotInput(bins: seq<BinInput>, blockHash: Json, block: IntegerInput,
                                         observedHead: Option<IntegerInput>, workflowKey: Text)

  datatype Snapshot = Snapshot(bins: seq<Bin>, blockHash: string, block: nat, observedHead: nat, workflowKey: Text)

  function CreateSnapshot(k: Lengths, i: SnapshotInput): Option<Snapshot> {
    var block := ParseNonNegative(i.block);
    var head := if i.observedHead.None? then block else ParseNonNegative(i.observedHead.value);
    var bins, hash := Normalize(i.bins, true), NormalizeHex(i.blockHash, 64);
    if ParseWorkflowKey(k, i.workflowKey).None? || block.None? || head.None? || head.value < block.value || bins.None?
       || hash.None? then None
    else Some(Snapshot(bins.value, hash.value, block.value, head.value, i.workflowKey))
  }

  function StateText(s: Snapshot): Text {
    Rendered(JArray([JText(Plain(STATE_TAG)), JNumber(1), JText(s.workflowKey), JText(Plain(Print(s.block))),
                     JText(Plain(s.blockHash)), JArray(EncodeBins(s.bins))]), 0)
  }

  function Fingerprint(k: Lengths, i: SnapshotInput): Option<Text> {
    var s := CreateSnapshot(k, i);
    if s.None? then None else Some(StateText(s.value))
  }

  function InputOfSnapshot(s: Snapshot): SnapshotInput {
    SnapshotInput(InputOf(s.bins), JText(Plain(s.blockHash)), Big(s.block), Some(Big(s.observedHead)), s.workflowKey)
  }

  function TextInput(v: Json): IntegerInput {
    if v.JText? && v.text.Plain? then Digits(v.text.chars) else NotInteger
  }

  function ParseFingerprint(k: Lengths, t: Text): Option<Snapshot> {
    var p := ParseArray(k, t);
    if p.None? || |p.value| != 6 || p.value[0] != JText(Plain(STATE_TAG)) || p.value[1] != JNumber(1) then None
    else if !p.value[2].JText? || !p.value[3].JText? || !p.value[5].JArray? then None
    else
      var bins := DecodeBins(p.value[5].items);
      if bins.None? then None
      else
        var block := TextInput(p.value[3]);
        var s := CreateSnapshot(k, SnapshotInput(InputOf(bins.value), p.value[4], block, Some(block), p.value[2].text));
        if s.None? || Fingerprint(k, InputOfSnapshot(s.value)) != Some(t) then None else s
  }

  lemma SnapshotNormal(k: Lengths, i: SnapshotInput)
    requires CreateSnapshot(k, i).Some?
    ensures var s := CreateSnapshot(k, i).value;
            && Normal(s.bins) && NormalizeHex(JText(Plain(s.blockHash)), 64) == Some(s.blockHash)
            && ParseWorkflowKey(k, s.workflowKey).Some? && s.block <= s.observedHead
  {
    hide ParseWorkflowKey, Normalize, NormalizeHex, ParseNonNegative;
    NormalizeLists(i.bins, true);
    NormalizedHexFixed(i.blockHash, 64);
  }

  lemma SnapshotFixed(k: Lengths, s: Snapshot)
    requires Normal(s.bins) && NormalizeHex(JText(Plain(s.blockHash)), 64) == Some(s.blockHash)
    requires ParseWorkflowKey(k, s.workflowKey).Some? && s.block <= s.observedHead
    ensures CreateSnapshot(k, InputOfSnapshot(s)) == Some(s)
  {
    hide ParseWorkflowKey, Normalize, NormalizeHex;
    ReadsBack(s.bins);
    NormalFixed(InputOf(s.bins), s.bins, true);
  }

  /** The snapshot as pinned: what was observed beyond the pinned block is not encoded. */
  function Pinned(s: Snapshot): Snapshot {
    s.(observedHead := s.block)
  }

  lemma FromTextFixed(k: Lengths, s: Snapshot)
    requires Normal(s.bins) && NormalizeHex(JText(Plain(s.blockHash)), 64) == Some(s.blockHash)
    requires ParseWorkflowKey(k, s.workflowKey).Some?
    ensures var block := Digits(Print(s.block));
            CreateSnapshot(k, SnapshotInput(InputOf(s.bins), JText(Plain(s.blockHash)), block, Some(block), s.workflowKey))
            == Some(Pinned(s))
  {
    hide ParseWorkflowKey, Normalize, NormalizeHex;
    ReadsBack(s.bins);
    NormalFixed(InputOf(s.bins), s.bins, true);
    ParsePrint(s.block);
  }

  /** A fingerprint parses to the normalized state, up to the unpinned observed head, exactly when it is within the
      length bound. The encoder does not check that bound. */
  lemma FingerprintRoundTrip(k: Lengths, i: SnapshotInput)
    requires Fingerprint(k, i).Some?
    ensures var t := Fingerprint(k, i).value;
            ParseFingerprint(k, t) == if k.isEncoding(t) then Some(Pinned(CreateSnapshot(k, i).value)) else None
  {
    hide ParseWorkflowKey, Normalize, NormalizeHex, CreateSnapshot, Normal;
    SnapshotNormal(k, i);
    ParsesOwnState(k, CreateSnapshot(k, i).value);
  }

  lemma ParsesOwnState(k: Lengths, s: Snapshot)
    requires Normal(s.bins) && NormalizeHex(JText(Plain(s.blockHash)), 64) == Some(s.blockHash)
    requires ParseWorkflowKey(k, s.workflowKey).Some?
    ensures ParseFingerprint(k, StateText(s)) == if k.isEncoding(StateText(s)) then Some(Pinned(s)) else None
  {
    hide ParseWorkflowKey, Normalize, NormalizeHex, CreateSnapshot, Normal, DecodeBins;
    BinsRoundTrip(s.bins);
    FromTextFixed(k, s);
    SnapshotFixed(k, Pinned(s));
    assert StateText(Pinned(s)) == StateText(s);
  }

  /** Only canonical fingerprints parse. */
  lemma FingerprintCanonical(k: Lengths, t: Text)
    requires ParseFingerprint(k, t).Some?
    ensures Fingerprint(k, InputOfSnapshot(ParseFingerprint(k, t).value)) == Some(t)
    ensures k.isEncoding(t)
  {
    hide ParseWorkflowKey, Normalize, NormalizeHex, CreateSnapshot, DecodeBins;
  }

  /** Fingerprints are equal exactly when the normalized pinned content is. */
  lemma FingerprintsEqualIff(k: Lengths, a: SnapshotInput, b: SnapshotInput)
    requires Fingerprint(k, a).Some? && Fingerprint(k, b).Some?
    ensures Fingerprint(k, a) == Fingerprint(k, b) <==>
              Pinned(CreateSnapshot(k, a).value) == Pinned(CreateSnapshot(k, b).value)
  {
    hide CreateSnapshot;
    StateTextInjective(CreateSnapshot(k, a).value, CreateSnapshot(k, b).value);
  }

  lemma StateTextInjective(x: Snapshot, y: Snapshot)
    ensures StateText(x) == StateText(y) <==> Pinned(x) == Pinned(y)
  {
    if StateText(x) == StateText(y) {
      var p, q := StateText(x).json.items, StateText(y).json.items;
      assert p[2] == q[2] && p[3] == q[3] && p[4] == q[4] && p[5] == q[5];
      ParsePrint(x.block);
      ParsePrint(y.block);
      EncodeBinsInjective(x.bins, y.bins);
    }
  }

  /** Two inputs that list the same positive balances at the same block of the same workflow have the same
      fingerprint: the order of bins, empty bins and letter case do not matter. */
  lemma SameContentSameFingerprint(k: Lengths, a: SnapshotInput, b: SnapshotInput)
    requires Fingerprint(k, a).Some? && Fingerprint(k, b).Some?
    requires a.workflowKey == b.workflowKey && ParseNonNegative(a.block) == ParseNonNegative(b.block)
    requires NormalizeHex(a.blockHash, 64) == NormalizeHex(b.blockHash, 64)
    ensures Fingerprint(k, a) == Fingerprint(k, b) <==> forall x :: Lists(a.bins, x) <==> Lists(b.bins, x)
  {
    hide ParseWorkflowKey, Normalize, NormalizeHex, ParseNonNegative, Lists;
    FingerprintsEqualIff(k, a, b);
    NormalizeIgnoresOrder(a.bins, b.bins, true, true);
  }

  // Batch settings

  datatype SettingsInput = SettingsInput(ordinal: Json, bins: seq<BinInput>, fingerprint: Text, workflowKey: Text)

  datatype Settings = Settings(ordinal: int, bins: seq<Bin>, fingerprint: Text, workflowKey: Text)

  function BalanceIn(bins: seq<Bin>, id: nat): Option<nat> {
    if bins == [] then None
    else if bins[|bins| - 1].id == id then Some(bins[|bins| - 1].balance)
    else BalanceIn(bins[..|bins| - 1], id)
  }

  predicate AllPinned(bins: seq<Bin>, state: seq<Bin>) {
    forall b :: b in bins ==> BalanceIn(state, b.id) == Some(b.balance)
  }

  function CheckSettings(k: Lengths, i: SettingsInput): Option<Settings> {
    var state := ParseFingerprint(k, i.fingerprint);
    var ordinal, bins := SafeAtLeast(i.ordinal, 1), Normalize(i.bins, false);
    if ParseWorkflowKey(k, i.workflowKey).None? || state.None? || state.value.workflowKey != i.workflowKey || ordinal.None?
       || bins.None? || bins.value == [] || !AllPinned(bins.value, state.value.bins) then None
    else Some(Settings(ordinal.value, bins.value, i.fingerprint, i.workflowKey))
  }

  function SettingsText(s: Settings): Text {
    Rendered(JArray([JText(Plain(SETTINGS_TAG)), JNumber(1), JText(s.workflowKey), JText(s.fingerprint), JNumber(s.ordinal),
                     JArray(EncodeBins(s.bins))]), 0)
  }

  function EncodeSettings(k: Lengths, i: SettingsInput): Option<Text> {
    var s := CheckSettings(k, i);
    if s.None? then None else Some(SettingsText(s.value))
  }

  function InputOfSettings(s: Settings): SettingsInput {
    SettingsInput(JNumber(s.ordinal), InputOf(s.bins), s.fingerprint, s.workflowKey)
  }

  function ParseSettings(k: Lengths, t: Text): Option<Settings> {
    var p := ParseArray(k, t);
    if p.None? || |p.value| != 6 || p.value[0] != JText(Plain(SETTINGS_TAG)) || p.value[1] != JNumber(1) then None
    else if !p.value[2].JText? || !p.value[3].JText? || !p.value[5].JArray? then None
    else
      var bins, ordinal := DecodeBins(p.value[5].items), SafeAtLeast(p.value[4], 1);
      if bins.None? || ordinal.None? then None
      else
        var s := Settings(ordinal.value, bins.value, p.value[3].text, p.value[2].text);
        if EncodeSettings(k, InputOfSettings(s)) != Some(t) then None else Some(s)
  }

  /** Encoded settings parse to what was checked, exactly when they are within the length bound. */
  lemma SettingsRoundTrip(k: Lengths, i: SettingsInput)
    requires EncodeSettings(k, i).Some?
    ensures var t := EncodeSettings(k, i).value;
            ParseSettings(k, t) == if k.isEncoding(t) then CheckSettings(k, i) else None
  {
    hide ParseWorkflowKey, ParseFingerprint, Normalize, AllPinned, Normal, DecodeBins;
    var s := CheckSettings(k, i).value;
    NormalizeLists(i.bins, false);
    BinsRoundTrip(s.bins);
    ReadsBack(s.bins);
    NormalFixed(InputOf(s.bins), s.bins, false);
    assert CheckSettings(k, InputOfSettings(s)) == Some(s);
  }

  /** Only canonical settings parse, and they list positive balances exactly as pinned by their state. */
  lemma SettingsCanonical(k: Lengths, t: Text)
    requires ParseSettings(k, t).Some?
    ensures var s := ParseSettings(k, t).value;
            && EncodeSettings(k, InputOfSettings(s)) == Some(t)
            && Normal(s.bins) && s.bins != []
            && ParseFingerprint(k, s.fingerprint).Some?
            && (forall b :: b in s.bins ==> b in ParseFingerprint(k, s.fingerprint).value.bins)
  {
    hide ParseWorkflowKey, ParseFingerprint, Normalize, Normal, DecodeBins;
    var p := ParseArray(k, t).value;
    var s := ParseSettings(k, t).value;
    BinsCanonical(p[5].items);
    var state := ParseFingerprint(k, s.fingerprint).value;
    ReadsBack(s.bins);
    NormalFixed(InputOf(s.bins), s.bins, false);
    forall b | b in s.bins
      ensures b in state.bins
    {
      PinnedMember(state.bins, b);
    }
  }

  lemma {:induction false} PinnedMember(state: seq<Bin>, b: Bin)
    requires BalanceIn(state, b.id) == Some(b.balance)
    ensures b in state
  {
    if state[|state| - 1].id != b.id {
      PinnedMember(state[..|state| - 1], b);
    }
  }
}
