/** The operator's side of authorization (`client/gatekeeper.ts`): a comma list of labels becomes a
    permission mask, a label becomes an action byte, and the program's check reads them back. */
module PolicyInput {
  import opened Base
  import opened Permissions
  import Accounts
  import Engine
  import AuditLog

  // ---------------------------------------------------------------- text

  /** What JavaScript's `trim` strips. */
  predicate IsSpace(c: char) {
    || c in {' ', '\t', '\n', '\r', '\U{0B}', '\U{0C}', '\U{A0}', '\U{1680}', '\U{2028}', '\U{2029}', '\U{202F}',
             '\U{205F}', '\U{3000}', '\U{FEFF}'}
    || '\U{2000}' <= c <= '\U{200A}'
  }

  predicate IsDigit(c: char) {
    '0' <= c <= '9'
  }

  function LowerChar(c: char): char {
    if 'A' <= c <= 'Z' then c - 'A' + 'a' else c
  }

  function Lower(s: string): string {
    seq(|s|, i requires 0 <= i < |s| => LowerChar(s[i]))
  }

  function TrimStart(s: string): string {
    if s != "" && IsSpace(s[0]) then TrimStart(s[1..]) else s
  }

  function TrimEnd(s: string): string {
    if s != "" && IsSpace(Last(s)) then TrimEnd(Init(s)) else s
  }

  function Trim(s: string): string {
    TrimEnd(TrimStart(s))
  }

  /** `split(",")`: always at least one piece. */
  function Split(s: string): seq<string> {
    if s == "" then [""]
    else
      var rest := Split(s[1..]);
      if s[0] == ',' then [""] + rest else [[s[0]] + rest[0]] + rest[1..]
  }

  function Join(pieces: seq<string>): string {
    if pieces == [] then "" else if |pieces| == 1 then pieces[0] else pieces[0] + "," + Join(pieces[1..])
  }

  // ---------------------------------------------------------------- the two parsers

  function LabelText(a: Action): string {
    match a
    case MetricsRead => "metrics:read"
    case MetricsWrite => "metrics:write"
    case UsersRead => "users:read"
    case UsersWrite => "users:write"
    case Admin => "admin"
  }

  function ActionOf(value: string): Option<Action> {
    if value == "metrics:read" then Some(MetricsRead)
    else if value == "metrics:write" then Some(MetricsWrite)
    else if value == "users:read" then Some(UsersRead)
    else if value == "users:write" then Some(UsersWrite)
    else if value == "admin" then Some(Admin)
    else None
  }

  function ActionCode(a: Action): u8 {
    match a
    case MetricsRead => 0
    case MetricsWrite => 1
    case UsersRead => 2
    case UsersWrite => 3
    case Admin => 4
  }

  /** `actionFromLabel`; `None` where the source throws. */
  function ActionFromLabel(text: string): Option<u8> {
    var a := ActionOf(Lower(Trim(text)));
    if a.Some? then Some(ActionCode(a.value)) else None
  }

  datatype ParsedMask = Labels(mask: Mask) | Numeral(digits: string) | UnknownPermission(value: string)

  /** The trimmed, lower-cased pieces of a comma list that are not blank. */
  function Tokens(input: string): seq<string> {
    NonBlank(Normalized(Split(input)))
  }

  function Normalized(pieces: seq<string>): seq<string> {
    seq(|pieces|, i requires 0 <= i < |pieces| => Lower(Trim(pieces[i])))
  }

  function NonBlank(values: seq<string>): seq<string> {
    if values == [] then []
    else if values[0] == "" then NonBlank(values[1..])
    else [values[0]] + NonBlank(values[1..])
  }

  function Reduce(mask: Mask, values: seq<string>): ParsedMask
    decreases |values|
  {
    if values == [] then Labels(mask)
    else
      var a := ActionOf(values[0]);
      if a.None? then UnknownPermission(values[0]) else Reduce(mask | PermissionMask(a.value), values[1..])
  }

  predicate IsNumeral(s: string) {
    s != "" && forall i :: 0 <= i < |s| ==> IsDigit(s[i])
  }

  /** `maskFromPolicyInput`. A numeral is handed on as it is, everything else is a comma list. */
  function MaskFromPolicyInput(input: string): ParsedMask {
    if IsNumeral(Trim(input)) then Numeral(Trim(input)) else Reduce(0, Tokens(input))
  }

  // ---------------------------------------------------------------- what a mask means

  function MaskOf(actions: set<Action>): Mask {
    (if MetricsRead in actions then PERMISSION_METRICS_READ else 0)
    | (if MetricsWrite in actions then PERMISSION_METRICS_WRITE else 0)
    | (if UsersRead in actions then PERMISSION_USERS_READ else 0)
    | (if UsersWrite in actions then PERMISSION_USERS_WRITE else 0)
    | (if Admin in actions then PERMISSION_ADMIN else 0)
  }

  function Named(values: seq<string>): set<Action> {
    set a: Action | LabelText(a) in values
  }

  lemma MaskAllows(actions: set<Action>, a: Action)
    ensures ValidMask(MaskOf(actions))
    ensures RoleAllows(MaskOf(actions), a) <==> a in actions || Admin in actions
  {
  }

  lemma MaskGrows(actions: set<Action>, a: Action)
    ensures MaskOf(actions) | PermissionMask(a) == MaskOf(actions + {a})
  {
  }

  lemma ActionOfLabel(a: Action)
    ensures ActionOf(LabelText(a)) == Some(a)
    ensures forall v :: ActionOf(v) == Some(a) ==> v == LabelText(a)
    ensures ParseAction(ActionCode(a)) == Some(a)
  {
  }

  predicate AllKnown(values: seq<string>) {
    forall i :: 0 <= i < |values| ==> ActionOf(values[i]).Some?
  }

  lemma KnownTail(values: seq<string>)
    requires values != [] && ActionOf(values[0]).Some?
    ensures AllKnown(values) <==> AllKnown(values[1..])
  {
  }

  lemma {:induction false} ReduceIsUnion(actions: set<Action>, values: seq<string>)
    ensures var r := Reduce(MaskOf(actions), values);
      if AllKnown(values) then r == Labels(MaskOf(actions + Named(values)))
      else r.UnknownPermission? && r.value in values && ActionOf(r.value).None?
    decreases |values|
  {
    hide MaskOf, ActionOf, PermissionMask, AllKnown, Named;
    if values == [] {
      NoNames();
      assert actions + {} == actions;
    } else if ActionOf(values[0]).Some? {
      var a := ActionOf(values[0]).value;
      MaskGrows(actions, a);
      ReduceIsUnion(actions + {a}, values[1..]);
      LabelNames(values, a);
      KnownTail(values);
      assert actions + {a} + Named(values[1..]) == actions + Named(values);
    } else {
      UnknownHead(values);
    }
  }

  lemma NoNames()
    ensures Named([]) == {} && AllKnown([])
  {
  }

  lemma UnknownHead(values: seq<string>)
    requires values != [] && ActionOf(values[0]).None?
    ensures !AllKnown(values)
  {
  }

  lemma LabelNames(values: seq<string>, a: Action)
    requires values != [] && ActionOf(values[0]) == Some(a)
    ensures Named(values) == {a} + Named(values[1..])
  {
  }

  /** Every input, whatever is in it. A numeral is handed on as it is. Anything else is accepted exactly when
      each non-blank piece is a label; then the mask passes the program's validation, and allows an action exactly
      when that action's label or `admin` is among the pieces. Otherwise a piece that is no label is
      reported. */
  lemma PolicyInputMeans(input: string)
    ensures var tokens, r := Tokens(input), MaskFromPolicyInput(input);
      && (r.Numeral? <==> IsNumeral(Trim(input)))
      && (r.Numeral? ==> r.digits == Trim(input))
      && (r.Labels? <==> !r.Numeral? && AllKnown(tokens))
      && (r.Labels? ==>
            && ValidMask(r.mask)
            && r.mask == MaskOf(Named(tokens))
            && (forall a: Action :: RoleAllows(r.mask, a) <==> LabelText(a) in tokens || LabelText(Admin) in tokens))
      && (r.UnknownPermission? ==> r.value in tokens && ActionOf(r.value).None?)
  {
    hide ActionOf, Tokens, LabelText, RoleAllows, ValidMask;
    var tokens := Tokens(input);
    EmptyMask();
    ReduceIsUnion({}, tokens);
    assert {} + Named(tokens) == Named(tokens);
    forall a: Action
      ensures ValidMask(MaskOf(Named(tokens)))
      ensures RoleAllows(MaskOf(Named(tokens)), a) <==> LabelText(a) in tokens || LabelText(Admin) in tokens {
      MaskAllows(Named(tokens), a);
    }
    assert ValidMask(MaskOf(Named(tokens))) by { MaskAllows(Named(tokens), Admin); }
  }

  lemma EmptyMask()
    ensures MaskOf({}) == 0
  {
  }

  // ---------------------------------------------------------------- numerals, and every input

  function Value(digits: string): nat
    requires forall i :: 0 <= i < |digits| ==> IsDigit(digits[i])
  {
    if digits == "" then 0
    else
      assert IsDigit(Last(digits));
      Value(Init(digits)) * 10 + (Last(digits) as int - '0' as int)
  }

  /** A number as a mask, binary digit by binary digit. */
  function ToMask(v: nat): (m: Mask)
    requires v < UNSAFE
    ensures m as int == v
  {
    if v == 0 then 0
    else
      var m := ToMask(v / 2);
      Doubled(m);
      if v % 2 == 1 then (m << 1) | 1 else m << 1
  }

  lemma Doubled(m: Mask)
    requires m as int < UNSAFE
    ensures (m << 1) as int == 2 * (m as int)
    ensures ((m << 1) | 1) as int == 2 * (m as int) + 1
  {
    HasHeadroom(m);
    DoublesWithoutLoss(m);
  }

  lemma HasHeadroom(m: Mask)
    requires m as int < UNSAFE
    ensures m < 0x4000_0000_0000_0000
  {
  }

  lemma DoublesWithoutLoss(m: Mask)
    requires m < 0x4000_0000_0000_0000
    ensures (m << 1) as int == 2 * (m as int)
    ensures ((m << 1) | 1) as int == 2 * (m as int) + 1
  {
  }

  /** The mask the client sends, if it sends one: it throws on an unknown label, and on a number that is
      not exact. */
  function Sent(input: string): Option<Mask> {
    var parsed := MaskFromPolicyInput(input);
    if IsNumeral(Trim(input)) then
      if Value(parsed.digits) < UNSAFE then Some(ToMask(Value(parsed.digits))) else None
    else if parsed.Labels? then Some(parsed.mask)
    else None
  }

  function Weight(a: Action): nat {
    match a
    case MetricsRead => 1
    case MetricsWrite => 2
    case UsersRead => 4
    case UsersWrite => 8
    case Admin => 16
  }

  /** The binary digit at a place. */
  predicate Digit(v: nat, place: nat)
    requires place > 0
  {
    v / place % 2 == 1
  }

  /** The actions whose bit is set in a number. */
  function Bits(v: nat): set<Action> {
    set a: Action | Digit(v, Weight(a))
  }

  lemma SmallNumeral(v: nat, a: Action)
    requires v < 32
    ensures RoleAllows(ToMask(v), a) <==> a in Bits(v) || Admin in Bits(v)
  {
    hide Bits, PermissionMask, ToMask;
    SmallOrLarge(ToMask(v));
    BitIsDigit(ToMask(v), a);
    BitIsDigit(ToMask(v), Admin);
    assert PermissionMask(Admin) == PERMISSION_ADMIN by { AdminBit(); }
  }

  lemma AdminBit()
    ensures PermissionMask(Admin) == PERMISSION_ADMIN
  {
  }

  lemma Bit0(m: Mask)
    requires m <= 31
    ensures m & 1 != 0 <==> Digit(m as int, 1)
  {
  }

  lemma Bit1(m: Mask)
    requires m <= 31
    ensures m & 2 != 0 <==> Digit(m as int, 2)
  {
  }

  lemma Bit2(m: Mask)
    requires m <= 31
    ensures m & 4 != 0 <==> Digit(m as int, 4)
  {
  }

  lemma Bit3(m: Mask)
    requires m <= 31
    ensures m & 8 != 0 <==> Digit(m as int, 8)
  {
  }

  lemma Bit4(m: Mask)
    requires m <= 31
    ensures m & 16 != 0 <==> Digit(m as int, 16)
  {
  }

  lemma BitIsDigit(m: Mask, a: Action)
    requires m <= 31
    ensures m & PermissionMask(a) != 0 <==> a in Bits(m as int)
  {
    hide Digit;
    match a
    case MetricsRead => Bit0(m);
    case MetricsWrite => Bit1(m);
    case UsersRead => Bit2(m);
    case UsersWrite => Bit3(m);
    case Admin => Bit4(m);
  }

  lemma SmallOrLarge(m: Mask)
    ensures m <= 31 <==> m as int <= 31
    ensures m <= 31 <==> ValidMask(m)
  {
  }

  /** The actions an input asks for: by bit if it is a numeral, else by label. */
  function Asked(input: string): set<Action> {
    if IsNumeral(Trim(input)) then Bits(Value(Trim(input))) else Named(Tokens(input))
  }

  /** Any text at all, up to the program's own check: the mask gets attached exactly when the text is a
      numeral below 32 or a list of nothing but labels, and the role then allows an action exactly when
      that action or `admin` was asked for. */
  lemma EveryInput(input: string, role: Accounts.RoleState)
    ensures var sent := Sent(input);
      var attached := sent.Some? && Engine.AttachPolicy(role, sent.value).Ok?;
      && (attached <==> if IsNumeral(Trim(input)) then Value(Trim(input)) < 32 else AllKnown(Tokens(input)))
      && (attached ==>
            && Engine.AttachPolicy(role, sent.value).value == role.(policyMask := sent.value)
            && (forall a: Action :: RoleAllows(sent.value, a) <==> a in Asked(input) || Admin in Asked(input)))
  {
    hide Trim, Tokens, MaskOf, Named, Bits, ValidMask, RoleAllows, AllKnown;
    if IsNumeral(Trim(input)) {
      var v := Value(Trim(input));
      if v < 32 {
        forall a: Action ensures RoleAllows(ToMask(v), a) <==> a in Bits(v) || Admin in Bits(v) {
          SmallNumeral(v, a);
        }
      }
      if v < UNSAFE { SmallOrLarge(ToMask(v)); }
    } else {
      PolicyInputMeans(input);
      forall a: Action ensures LabelText(a) in Tokens(input) <==> a in Named(Tokens(input)) {
        NamedByLabel(Tokens(input), a);
      }
    }
  }

  lemma NamedByLabel(values: seq<string>, a: Action)
    ensures LabelText(a) in values <==> a in Named(values)
  {
  }

  // ---------------------------------------------------------------- how a list may be spelled

  /** One piece of a list: nothing but spacing, or a label in any case with spacing around it. */
  datatype Piece = Blank(spacing: string) | Label(before: string, body: string, after: string, action: Action)

  /** White space and line terminators, one by one. */
  const SPACING: set<char> := {
    ' ', '\t', '\n', '\r', '\U{0B}', '\U{0C}', '\U{A0}', '\U{1680}', '\U{2000}', '\U{2001}', '\U{2002}', '\U{2003}',
    '\U{2004}', '\U{2005}', '\U{2006}', '\U{2007}', '\U{2008}', '\U{2009}', '\U{200A}', '\U{2028}', '\U{2029}',
    '\U{202F}', '\U{205F}', '\U{3000}', '\U{FEFF}' }

  predicate AllSpacing(s: string) {
    forall i :: 0 <= i < |s| ==> s[i] in SPACING
  }

  /** Letter by letter: the same character, or its capital. */
  predicate Spells(body: string, text: string) {
    && |body| == |text|
    && (forall i :: 0 <= i < |text| ==>
          body[i] == text[i] || ('a' <= text[i] <= 'z' && body[i] as int == text[i] as int - 32))
  }

  predicate WellSpelled(p: Piece) {
    match p
    case Blank(spacing) => AllSpacing(spacing)
    case Label(before, body, after, action) =>
      AllSpacing(before) && AllSpacing(after) && Spells(body, LabelText(action))
  }

  predicate AllSpace(s: string) {
    forall i :: 0 <= i < |s| ==> IsSpace(s[i])
  }

  lemma SpacingIsSpace(s: string)
    ensures AllSpacing(s) <==> AllSpace(s)
  {
    forall i | 0 <= i < |s| ensures s[i] in SPACING <==> IsSpace(s[i]) {
      OneSpacing(s[i]);
    }
  }

  lemma OneSpacing(c: char)
    ensures c in SPACING <==> IsSpace(c)
  {
    if '\U{2000}' <= c <= '\U{200A}' {
      assert c as int in {0x2000, 0x2001, 0x2002, 0x2003, 0x2004, 0x2005, 0x2006, 0x2007, 0x2008, 0x2009, 0x200A};
    }
  }

  predicate NoCapitals(text: string) {
    forall i :: 0 <= i < |text| ==> !('A' <= text[i] <= 'Z')
  }

  lemma SpellsIsLower(body: string, text: string)
    requires NoCapitals(text)
    ensures Spells(body, text) <==> Lower(body) == text
  {
    if Lower(body) == text {
      forall i | 0 <= i < |text|
        ensures body[i] == text[i] || ('a' <= text[i] <= 'z' && body[i] as int == text[i] as int - 32) {
        assert Lower(body)[i] == LowerChar(body[i]);
        OneLetter(body[i], text[i]);
      }
    }
    if Spells(body, text) {
      forall i | 0 <= i < |text| ensures Lower(body)[i] == text[i] {
        OneLetter(body[i], text[i]);
      }
    }
  }

  lemma OneLetter(c: char, t: char)
    requires !('A' <= t <= 'Z')
    ensures LowerChar(c) == t <==> c == t || ('a' <= t <= 'z' && c as int == t as int - 32)
  {
  }

  lemma LabelsHaveNoCapitals(a: Action)
    ensures NoCapitals(LabelText(a))
  {
  }

  function Written(p: Piece): string {
    match p
    case Blank(spacing) => spacing
    case Label(before, body, after, _) => before + body + after
  }

  function WrittenAll(pieces: seq<Piece>): seq<string> {
    seq(|pieces|, i requires 0 <= i < |pieces| => Written(pieces[i]))
  }

  function ActionsIn(pieces: seq<Piece>): set<Action> {
    set i | 0 <= i < |pieces| && pieces[i].Label? :: pieces[i].action
  }

  lemma {:induction false} TrimStartPad(pad: string, rest: string)
    requires AllSpace(pad) && (rest == "" || !IsSpace(rest[0]))
    ensures TrimStart(pad + rest) == rest
  {
    if pad == "" {
      assert pad + rest == rest;
    } else {
      assert (pad + rest)[1..] == pad[1..] + rest;
      TrimStartPad(pad[1..], rest);
    }
  }

  lemma {:induction false} TrimEndPad(rest: string, pad: string)
    requires AllSpace(pad) && (rest == "" || !IsSpace(Last(rest)))
    ensures TrimEnd(rest + pad) == rest
  {
    if pad == "" {
      assert rest + pad == rest;
    } else {
      assert Init(rest + pad) == rest + Init(pad);
      assert Last(rest + pad) == Last(pad);
      TrimEndPad(rest, Init(pad));
    }
  }

  /** The characters of a label: no comma, no digit, no spacing. */
  predicate Plain(c: char) {
    c != ',' && !IsDigit(c) && !IsSpace(c)
  }

  lemma LabelIsPlain(a: Action)
    ensures LabelText(a) != ""
    ensures forall i :: 0 <= i < |LabelText(a)| ==> Plain(LabelText(a)[i])
  {
  }

  lemma PlainBelowCase(c: char)
    requires Plain(LowerChar(c))
    ensures Plain(c)
  {
  }

  lemma BodyIsPlain(body: string, a: Action)
    requires Lower(body) == LabelText(a)
    ensures body != ""
    ensures forall i :: 0 <= i < |body| ==> Plain(body[i])
  {
    hide LabelText, Plain;
    LabelIsPlain(a);
    forall i | 0 <= i < |body| ensures Plain(body[i]) {
      assert Lower(body)[i] == LowerChar(body[i]);
      PlainBelowCase(body[i]);
    }
  }

  lemma WrittenNormalizes(p: Piece)
    requires WellSpelled(p)
    ensures Lower(Trim(Written(p))) == if p.Label? then LabelText(p.action) else ""
    ensures forall i :: 0 <= i < |Written(p)| ==> Written(p)[i] != ',' && !IsDigit(Written(p)[i])
  {
    hide LabelText, Spells, AllSpacing;
    match p
    case Blank(spacing) =>
      SpacingIsSpace(spacing);
      TrimStartPad(spacing, "");
      assert spacing + "" == spacing;
    case Label(before, body, after, a) =>
      SpacingIsSpace(before);
      SpacingIsSpace(after);
      LabelsHaveNoCapitals(a);
      SpellsIsLower(body, LabelText(a));
      BodyIsPlain(body, a);
      assert before + body + after == before + (body + after);
      TrimStartPad(before, body + after);
      TrimEndPad(body, after);
  }

  lemma {:induction false} SplitNoComma(s: string)
    requires forall i :: 0 <= i < |s| ==> s[i] != ','
    ensures Split(s) == [s]
  {
    if s == "" {
    } else {
      SplitNoComma(s[1..]);
      assert [s[0]] + s[1..] == s;
    }
  }

  lemma {:induction false} SplitAtComma(s: string, t: string)
    requires forall i :: 0 <= i < |s| ==> s[i] != ','
    ensures Split(s + "," + t) == [s] + Split(t)
  {
    var whole := s + "," + t;
    if s == "" {
      assert whole[1..] == t;
    } else {
      assert whole[1..] == s[1..] + "," + t;
      SplitAtComma(s[1..], t);
      assert [s[0]] + s[1..] == s;
    }
  }

  /** Splitting undoes joining. */
  lemma {:induction false} SplitJoin(pieces: seq<string>)
    requires pieces != []
    requires forall p :: p in pieces ==> forall i :: 0 <= i < |p| ==> p[i] != ','
    ensures Split(Join(pieces)) == pieces
  {
    assert pieces[0] in pieces;
    if |pieces| == 1 {
      SplitNoComma(pieces[0]);
    } else {
      forall p | p in pieces[1..] ensures p in pieces {
      }
      SplitJoin(pieces[1..]);
      SplitAtComma(pieces[0], Join(pieces[1..]));
    }
  }

  lemma {:induction false} JoinHasNoDigit(pieces: seq<string>)
    requires forall p :: p in pieces ==> forall i :: 0 <= i < |p| ==> !IsDigit(p[i])
    ensures forall i :: 0 <= i < |Join(pieces)| ==> !IsDigit(Join(pieces)[i])
  {
    if |pieces| > 1 {
      assert pieces[0] in pieces;
      forall p | p in pieces[1..] ensures p in pieces {
      }
      JoinHasNoDigit(pieces[1..]);
    } else if |pieces| == 1 {
      assert pieces[0] in pieces;
    }
  }

  lemma {:induction false} TrimStartKeeps(s: string, c: char)
    ensures c in TrimStart(s) ==> c in s
  {
    if s != "" && IsSpace(s[0]) {
      TrimStartKeeps(s[1..], c);
    }
  }

  lemma {:induction false} TrimEndKeeps(s: string, c: char)
    ensures c in TrimEnd(s) ==> c in s
  {
    if s != "" && IsSpace(Last(s)) {
      TrimEndKeeps(Init(s), c);
    }
  }

  lemma NoDigitNoNumeral(s: string)
    requires forall i :: 0 <= i < |s| ==> !IsDigit(s[i])
    ensures !IsNumeral(Trim(s))
  {
    var t := Trim(s);
    if t != "" {
      TrimEndKeeps(TrimStart(s), t[0]);
      TrimStartKeeps(s, t[0]);
      assert t[0] in s;
    }
  }

  lemma {:induction false} NonBlankNames(values: seq<string>)
    ensures forall v :: v in NonBlank(values) <==> v in values && v != ""
  {
    if values == [] {
    } else {
      NonBlankNames(values[1..]);
      assert values == [values[0]] + values[1..];
    }
  }

  lemma TokensWritten(pieces: seq<Piece>)
    requires forall i :: 0 <= i < |pieces| ==> WellSpelled(pieces[i])
    ensures !IsNumeral(Trim(Join(WrittenAll(pieces))))
    ensures forall v :: v in Tokens(Join(WrittenAll(pieces))) <==>
      exists i :: 0 <= i < |pieces| && pieces[i].Label? && v == LabelText(pieces[i].action)
  {
    hide LabelText, WellSpelled, Trim, IsNumeral;
    var texts := WrittenAll(pieces);
    forall p | p in texts ensures forall i :: 0 <= i < |p| ==> p[i] != ',' && !IsDigit(p[i]) {
      var j :| 0 <= j < |texts| && texts[j] == p;
      WrittenNormalizes(pieces[j]);
    }
    JoinHasNoDigit(texts);
    NoDigitNoNumeral(Join(texts));
    var values := Normalized(Split(Join(texts)));
    NonBlankNames(values);
    if pieces == [] {
      EmptyInput();
    } else {
      SplitJoin(texts);
      forall i | 0 <= i < |pieces|
        ensures values[i] == if pieces[i].Label? then LabelText(pieces[i].action) else ""
        ensures pieces[i].Label? ==> LabelText(pieces[i].action) != "" {
        WrittenNormalizes(pieces[i]);
        if pieces[i].Label? { LabelIsPlain(pieces[i].action); }
      }
      assert |values| == |pieces|;
    }
  }

  lemma EmptyInput()
    ensures Normalized(Split("")) == [""]
  {
  }

  /** Every comma list of known labels, in any case, spacing and order, with repeats and blanks, is
      accepted, and its mask depends on nothing but the set of labels in it. */
  lemma EveryListParses(pieces: seq<Piece>)
    requires forall i :: 0 <= i < |pieces| ==> WellSpelled(pieces[i])
    ensures MaskFromPolicyInput(Join(WrittenAll(pieces))) == Labels(MaskOf(ActionsIn(pieces)))
  {
    hide WellSpelled, Tokens, Trim, IsNumeral, MaskOf, LabelText;
    var input := Join(WrittenAll(pieces));
    var tokens := Tokens(input);
    TokensWritten(pieces);
    PolicyInputMeans(input);
    forall i | 0 <= i < |tokens| ensures ActionOf(tokens[i]).Some? {
      assert tokens[i] in tokens;
      var j :| 0 <= j < |pieces| && pieces[j].Label? && tokens[i] == LabelText(pieces[j].action);
      ActionOfLabel(pieces[j].action);
    }
    forall a: Action ensures a in Named(tokens) <==> a in ActionsIn(pieces) {
      ActionOfLabel(a);
      if LabelText(a) in tokens {
        var j :| 0 <= j < |pieces| && pieces[j].Label? && LabelText(a) == LabelText(pieces[j].action);
        ActionOfLabel(pieces[j].action);
      }
    }
    assert Named(tokens) == ActionsIn(pieces);
  }

  // ---------------------------------------------------------------- and nothing else is accepted

  lemma {:induction false} TrimStartLeaves(s: string) returns (before: string)
    ensures s == before + TrimStart(s) && AllSpace(before)
  {
    if s != "" && IsSpace(s[0]) {
      var rest := TrimStartLeaves(s[1..]);
      before := [s[0]] + rest;
      assert s == [s[0]] + s[1..];
    } else {
      before := "";
    }
  }

  lemma {:induction false} TrimEndLeaves(s: string) returns (after: string)
    ensures s == TrimEnd(s) + after && AllSpace(after)
  {
    if s != "" && IsSpace(Last(s)) {
      var rest := TrimEndLeaves(Init(s));
      after := rest + [Last(s)];
      assert s == Init(s) + [Last(s)];
    } else {
      after := "";
    }
  }

  /** Trimming takes off spacing at both ends and nothing else. */
  lemma TrimLeaves(s: string) returns (before: string, after: string)
    ensures s == before + Trim(s) + after && AllSpacing(before) && AllSpacing(after)
  {
    before := TrimStartLeaves(s);
    after := TrimEndLeaves(TrimStart(s));
    SpacingIsSpace(before);
    SpacingIsSpace(after);
    assert before + (Trim(s) + after) == before + Trim(s) + after;
  }

  /** A text that normalizes to nothing or to a label is a piece of a list. */
  lemma PieceOf(text: string) returns (p: Piece)
    requires Lower(Trim(text)) == "" || ActionOf(Lower(Trim(text))).Some?
    ensures WellSpelled(p) && Written(p) == text
    ensures p.Label? <==> Lower(Trim(text)) != ""
    ensures p.Label? ==> ActionOf(Lower(Trim(text))) == Some(p.action)
  {
    hide LabelText, Trim, ActionOf, Spells, AllSpacing;
    var before, after := TrimLeaves(text);
    if Lower(Trim(text)) == "" {
      assert |Lower(Trim(text))| == |Trim(text)|;
      p := Blank(text);
      SpacingJoins(before, after);
      assert text == before + after;
    } else {
      var a := ActionOf(Lower(Trim(text))).value;
      ActionOfLabel(a);
      LabelsHaveNoCapitals(a);
      SpellsIsLower(Trim(text), LabelText(a));
      p := Label(before, Trim(text), after, a);
    }
  }

  lemma SpacingJoins(a: string, b: string)
    requires AllSpacing(a) && AllSpacing(b)
    ensures AllSpacing(a + b)
  {
  }

  lemma {:induction false} PiecesOf(texts: seq<string>) returns (pieces: seq<Piece>)
    requires forall i :: 0 <= i < |texts| ==>
      Lower(Trim(texts[i])) == "" || ActionOf(Lower(Trim(texts[i]))).Some?
    ensures WrittenAll(pieces) == texts && forall i :: 0 <= i < |pieces| ==> WellSpelled(pieces[i])
  {
    hide WellSpelled, ActionOf, Trim, Written;
    if texts == [] {
      pieces := [];
    } else {
      var p := PieceOf(texts[0]);
      var rest := PiecesOf(texts[1..]);
      pieces := [p] + rest;
      assert texts == [texts[0]] + texts[1..];
      assert WrittenAll(pieces) == [Written(p)] + WrittenAll(rest);
    }
  }

  lemma {:induction false} JoinSplit(s: string)
    ensures Split(s) != [] && Join(Split(s)) == s
  {
    if s == "" {
    } else {
      var rest := Split(s[1..]);
      JoinSplit(s[1..]);
      assert s == [s[0]] + s[1..];
      if s[0] == ',' {
        assert ([""] + rest)[1..] == rest;
      } else {
        JoinHead([s[0]], rest);
      }
    }
  }

  lemma JoinHead(head: string, rest: seq<string>)
    requires rest != []
    ensures Join([head + rest[0]] + rest[1..]) == head + Join(rest)
  {
    if |rest| > 1 {
      assert ([head + rest[0]] + rest[1..])[1..] == rest[1..];
      assert head + (rest[0] + "," + Join(rest[1..])) == head + rest[0] + "," + Join(rest[1..]);
    }
  }

  /** The parser accepts exactly the lists so spelled: a text that is no numeral yields a mask if and only if it
      is the pieces of some such list, joined by commas. */
  lemma AcceptedExactlyWhenSpelled(input: string)
    ensures MaskFromPolicyInput(input).Labels? <==>
      exists pieces :: (forall i :: 0 <= i < |pieces| ==> WellSpelled(pieces[i])) && Join(WrittenAll(pieces)) == input
  {
    hide WellSpelled, ActionOf, Trim, MaskOf, LabelText, Written, IsNumeral;
    PolicyInputMeans(input);
    if MaskFromPolicyInput(input).Labels? {
      var texts := Split(input);
      KnownPieces(texts);
      JoinSplit(input);
      var pieces := PiecesOf(texts);
    }
    forall pieces | (forall i :: 0 <= i < |pieces| ==> WellSpelled(pieces[i])) && Join(WrittenAll(pieces)) == input
      ensures MaskFromPolicyInput(input).Labels? {
      EveryListParses(pieces);
    }
  }

  lemma KnownPieces(texts: seq<string>)
    requires AllKnown(NonBlank(Normalized(texts)))
    ensures forall i :: 0 <= i < |texts| ==> Lower(Trim(texts[i])) == "" || ActionOf(Lower(Trim(texts[i]))).Some?
  {
    hide ActionOf, Trim;
    var values := Normalized(texts);
    NonBlankNames(values);
    forall i | 0 <= i < |texts| ensures Lower(Trim(texts[i])) == "" || ActionOf(Lower(Trim(texts[i]))).Some? {
      assert values[i] in values;
      if values[i] != "" {
        var j :| 0 <= j < |NonBlank(values)| && NonBlank(values)[j] == values[i];
      }
    }
  }

  /** Likewise one label: it yields a code exactly when it is some label so spelled, and then that label's. */
  lemma LabelAcceptedExactlyWhenSpelled(text: string, code: u8)
    ensures ActionFromLabel(text) == Some(code) <==>
      exists p: Piece :: p.Label? && WellSpelled(p) && Written(p) == text && ActionCode(p.action) == code
  {
    hide WellSpelled, ActionOf, Trim, LabelText, ActionCode;
    EmptyIsNoLabel();
    if ActionFromLabel(text) == Some(code) {
      var p := PieceOf(text);
    }
    forall p: Piece | p.Label? && WellSpelled(p) && Written(p) == text && ActionCode(p.action) == code
      ensures ActionFromLabel(text) == Some(code) {
      WrittenNormalizes(p);
      ActionOfLabel(p.action);
    }
  }

  lemma EmptyIsNoLabel()
    ensures ActionOf("").None?
  {
  }

  const DIGITS: string := "0123456789"

  /** A text is a numeral exactly when it is one or more decimal digits with spacing around them. */
  lemma NumeralExactlyWhen(input: string)
    ensures IsNumeral(Trim(input)) <==>
      exists before, digits, after :: IsPaddedNumeral(input, before, digits, after)
  {
    if IsNumeral(Trim(input)) {
      var before, after := TrimLeaves(input);
      forall i | 0 <= i < |Trim(input)| ensures Trim(input)[i] in DIGITS { OneDigit(Trim(input)[i]); }
      assert IsPaddedNumeral(input, before, Trim(input), after);
    }
    forall before, digits, after | IsPaddedNumeral(input, before, digits, after)
      ensures IsNumeral(Trim(input)) && Trim(input) == digits {
      PaddedNumeral(input, before, digits, after);
    }
  }

  predicate IsPaddedNumeral(input: string, before: string, digits: string, after: string) {
    && AllSpacing(before) && AllSpacing(after) && input == before + digits + after
    && digits != "" && forall i :: 0 <= i < |digits| ==> digits[i] in DIGITS
  }

  lemma PaddedNumeral(input: string, before: string, digits: string, after: string)
    requires IsPaddedNumeral(input, before, digits, after)
    ensures Trim(input) == digits && IsNumeral(digits)
  {
    hide AllSpacing, TrimStart, TrimEnd;
    forall i | 0 <= i < |digits| ensures IsDigit(digits[i]) && !IsSpace(digits[i]) { OneDigit(digits[i]); }
    SpacingIsSpace(before);
    SpacingIsSpace(after);
    assert before + digits + after == before + (digits + after);
    TrimStartPad(before, digits + after);
    TrimEndPad(digits, after);
  }

  lemma OneDigit(c: char)
    ensures c in DIGITS <==> IsDigit(c)
    ensures IsDigit(c) ==> !IsSpace(c)
  {
    if IsDigit(c) {
      assert DIGITS[c as int - '0' as int] == c;
    }
  }

  function Pow10(n: nat): nat {
    if n == 0 then 1 else 10 * Pow10(n - 1)
  }

  /** A numeral is read in decimal: a digit is worth its position among the digits, and ten times as much for
      each digit after it. */
  lemma {:induction false} ValueIsDecimal(a: string, b: string)
    requires forall i :: 0 <= i < |a| ==> IsDigit(a[i])
    requires forall i :: 0 <= i < |b| ==> IsDigit(b[i])
    ensures Value(a + b) == Value(a) * Pow10(|b|) + Value(b)
  {
    if b == "" {
      assert a + b == a;
    } else {
      assert Init(a + b) == a + Init(b) && Last(a + b) == Last(b);
      ValueIsDecimal(a, Init(b));
      TenTimes(Value(a), Pow10(|b| - 1), Value(Init(b)));
    }
  }

  lemma TenTimes(x: nat, p: nat, y: nat)
    ensures (x * p + y) * 10 == x * (10 * p) + y * 10
  {
  }

  lemma ValueOfDigit(d: nat)
    requires d < 10
    ensures IsDigit(DIGITS[d]) && Value([DIGITS[d]]) == d
  {
    assert Init([DIGITS[d]]) == "";
  }

  /** The client's names, the program's bytes and the program's bits for the five actions. */
  lemma LabelsAndCodes()
    ensures ActionFromLabel("metrics:read") == Some(0) && MaskFromPolicyInput("metrics:read") == Labels(1)
    ensures ActionFromLabel("metrics:write") == Some(1) && MaskFromPolicyInput("metrics:write") == Labels(2)
    ensures ActionFromLabel("users:read") == Some(2) && MaskFromPolicyInput("users:read") == Labels(4)
    ensures ActionFromLabel("users:write") == Some(3) && MaskFromPolicyInput("users:write") == Labels(8)
    ensures ActionFromLabel("admin") == Some(4) && MaskFromPolicyInput("admin") == Labels(16)
  {
    hide MaskFromPolicyInput, ActionFromLabel;
    OneLabel("metrics:read", MetricsRead);
    OneLabel("metrics:write", MetricsWrite);
    OneLabel("users:read", UsersRead);
    OneLabel("users:write", UsersWrite);
    OneLabel("admin", Admin);
  }

  lemma OneLabel(text: string, a: Action)
    requires text == LabelText(a)
    ensures ActionFromLabel(text) == Some(ActionCode(a)) && MaskFromPolicyInput(text) == Labels(PermissionMask(a))
  {
    hide MaskFromPolicyInput, ActionFromLabel, LabelText;
    var p := Label("", text, "", a);
    assert WellSpelled(p) && Written(p) == text;
    EveryListParses([p]);
    assert WrittenAll([p]) == [text] && ActionsIn([p]) == {a};
    OneBit(a);
    LabelAcceptedExactlyWhenSpelled(text, ActionCode(a));
  }

  lemma OneBit(a: Action)
    ensures MaskOf({a}) == PermissionMask(a)
  {
  }

  /** A text in capitals. */
  function Capitals(text: string): string {
    seq(|text|, i requires 0 <= i < |text| =>
      if 'a' <= text[i] <= 'z' then (text[i] as int - 32) as char else text[i])
  }

  function InCapitals(actions: seq<Action>): seq<string> {
    seq(|actions|, i requires 0 <= i < |actions| => Capitals(LabelText(actions[i])))
  }

  /** In particular a list of labels in capitals: it yields the mask of its labels, and a label in capitals the
      code of its action. */
  lemma CapitalsParse(actions: seq<Action>, asked: Action)
    ensures MaskFromPolicyInput(Join(InCapitals(actions))) == Labels(MaskOf(set a | a in actions))
    ensures ActionFromLabel(Capitals(LabelText(asked))) == Some(ActionCode(asked))
  {
    hide MaskFromPolicyInput, ActionFromLabel, MaskOf, LabelText, Capitals;
    var pieces := seq(|actions|, i requires 0 <= i < |actions| => InCapital(actions[i]));
    forall i | 0 <= i < |pieces| ensures WellSpelled(pieces[i]) && Written(pieces[i]) == InCapitals(actions)[i] {
      CapitalIsSpelled(actions[i]);
    }
    EveryListParses(pieces);
    assert WrittenAll(pieces) == InCapitals(actions);
    assert forall i :: 0 <= i < |pieces| ==> pieces[i].action == actions[i] && pieces[i].Label?;
    assert ActionsIn(pieces) == set a | a in actions;
    CapitalIsSpelled(asked);
    LabelAcceptedExactlyWhenSpelled(Capitals(LabelText(asked)), ActionCode(asked));
  }

  function InCapital(a: Action): Piece {
    Label("", Capitals(LabelText(a)), "", a)
  }

  lemma CapitalIsSpelled(a: Action)
    ensures WellSpelled(InCapital(a)) && Written(InCapital(a)) == Capitals(LabelText(a))
    ensures InCapital(a).Label?
  {
    hide LabelText;
  }

  // ---------------------------------------------------------------- reading decisions back

  /** `reasonLabel`; `None` for a code it does not know. */
  function ReasonLabel(reason: u8): Option<string> {
    match reason
    case 0 => Some("allowed")
    case 1 => Some("unauthorized")
    case 2 => Some("key_revoked")
    case 3 => Some("quota_exceeded")
    case 4 => Some("invalid_action")
    case _ => None
  }

  /** The client names every decision for what it was. */
  lemma DecisionsReadBack(c: Engine.Context, window: AuditLog.Window, action: u8, now: i64)
    ensures var verdict := AuditLog.Verdict(c, window, action, now);
      ReasonLabel(verdict.Code()) == Some(
        if !c.active then "key_revoked"
        else if action > 4 then "invalid_action"
        else if !AuditLog.Authorized(c, action) then "unauthorized"
        else if verdict == Allowed then "allowed"
        else "quota_exceeded")
  {
    hide RoleAllows;
  }

  /** From the operator's text to the program's verdict: attaching the parsed mask succeeds, and a
      request for a label, in any spelling, on an active key is then authorized exactly when that label
      or `admin` was in the list. */
  lemma EndToEndAuthorization(pieces: seq<Piece>, asked: Piece, role: Accounts.RoleState, limits: Engine.Limits)
    requires forall i :: 0 <= i < |pieces| ==> WellSpelled(pieces[i])
    requires WellSpelled(asked) && asked.Label?
    ensures var parsed, action := MaskFromPolicyInput(Join(WrittenAll(pieces))), ActionFromLabel(Written(asked));
      && parsed.Labels? && action.Some?
      && Engine.AttachPolicy(role, parsed.mask) == Ok(role.(policyMask := parsed.mask))
      && (AuditLog.Authorized(Engine.Context(true, parsed.mask, limits), action.value)
          <==> asked.action in ActionsIn(pieces) || Admin in ActionsIn(pieces))
  {
    hide WellSpelled, MaskFromPolicyInput, MaskOf, LabelText, RoleAllows, ValidMask;
    EveryListParses(pieces);
    MaskAllows(ActionsIn(pieces), asked.action);
    WrittenNormalizes(asked);
    ActionOfLabel(asked.action);
  }
}
