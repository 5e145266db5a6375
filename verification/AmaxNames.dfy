/** `amax_codegen.rs`: the register-name grammar of the AMax firmware eras. */
module AmaxNames {
  import opened Bytes

  datatype Register = Register(address: u32, path: Option<string>, name: Option<string>)

  const SLASH_PREFIX := "page_amax_energy/"
  const UNDERSCORE_PREFIX := "page_amax_energy_"

  // ---- Strings ----

  predicate IsDigit(c: char) { '0' <= c <= '9' }

  predicate AllDigits(s: string) { forall i :: 0 <= i < |s| ==> IsDigit(s[i]) }

  /** `str::find`: the first position of `c`. */
  function Find(s: string, c: char): (r: Option<nat>)
    ensures r.Some? ==> r.value < |s| && s[r.value] == c && c !in s[..r.value]
    ensures r.None? ==> c !in s
  {
    if s == [] then None
    else if s[0] == c then Some(0)
    else
      match Find(s[1..], c)
      case None => None
      case Some(i) => assert s[..i + 1] == [s[0]] + s[1..][..i]; Some(i + 1)
  }

  /** `rsplit(c).next()`: what follows the last `c`. */
  function LastToken(s: string, c: char): (r: string) {
    match Find(s, c)
    case None => s
    case Some(i) => LastToken(s[i + 1..], c)
  }

  function Digit(c: char): (d: nat)
    requires IsDigit(c)
    ensures d < 10
  {
    c as int - '0' as int
  }

  function Value(s: string): (v: nat)
    requires AllDigits(s)
  {
    if s == [] then 0 else 10 * Value(s[..|s| - 1]) + Digit(s[|s| - 1])
  }

  /** `str::parse::<u32>`: an optional plus sign and digits, without overflow. */
  function ParseU32(s: string): (r: Option<u32>) {
    var digits := if s != [] && s[0] == '+' then s[1..] else s;
    if digits == [] || !AllDigits(digits) || Value(digits) >= 0x1_0000_0000 then None
    else Some(Value(digits))
  }

  function Decimal(n: nat): (s: string)
    ensures s != [] && AllDigits(s)
  {
    var last := [('0' as int + n % 10) as char];
    if n < 10 then last else Decimal(n / 10) + last
  }

  // ---- The parser ----

  /** A digits-underscore token stands at the front of `s`. */
  predicate StartsWithToken(s: string) {
    var us := Find(s, '_');
    us.Some? && us.value > 0 && AllDigits(s[..us.value])
  }

  /** Consume leading tokens; the channel is the last of them. */
  function SplitFrom(channel: Option<u32>, rest: string): (r: (Option<u32>, string))
    decreases |rest|
  {
    if !StartsWithToken(rest) then (channel, rest)
    else
      var us := Find(rest, '_').value;
      SplitFrom(ParseU32(rest[..us]), rest[us + 1..])
  }

  method SplitUnderscoreBody(body: string) returns (channel: Option<u32>, rest: string)
    ensures (channel, rest) == SplitFrom(None, body)
  {
    rest := body;
    channel := None;
    while true
      invariant SplitFrom(channel, rest) == SplitFrom(None, body)
      decreases |rest|
    {
      var us := Find(rest, '_');
      if us.None? { break; }
      var head := rest[..us.value];
      if head == [] || !AllDigits(head) { break; }
      channel := ParseU32(head);
      rest := rest[us.value + 1..];
    }
  }

  function Raw(r: Register): (s: Option<string>) {
    if r.path.Some? then r.path else r.name
  }

  function FwKeyOf(raw: string): (key: string) {
    if SLASH_PREFIX <= raw then raw[|SLASH_PREFIX|..]
    else if !(UNDERSCORE_PREFIX <= raw) then raw
    else
      var rest := raw[|UNDERSCORE_PREFIX|..];
      match Find(rest, '/')
      case Some(slash) => rest[slash + 1..]
      case None => SplitFrom(None, rest).1
  }

  function FwKey(r: Register): (key: Option<string>) {
    var raw :- Raw(r);
    Some(FwKeyOf(raw))
  }

  predicate IsPerChannelName(raw: string) { UNDERSCORE_PREFIX <= raw || SLASH_PREFIX <= raw }

  predicate IsPerChannel(r: Register) {
    IsPerChannelName(if Raw(r).Some? then Raw(r).value else "")
  }

  function ChannelIndexOf(raw: string): (channel: Option<u32>) {
    if SLASH_PREFIX <= raw then None
    else if !(UNDERSCORE_PREFIX <= raw) then None
    else
      var rest := raw[|UNDERSCORE_PREFIX|..];
      match Find(rest, '/')
      case Some(slash) => ParseU32(LastToken(rest[..slash], '_'))
      case None => SplitFrom(None, rest).0
  }

  function ChannelIndex(r: Register): (channel: Option<u32>) {
    var raw :- Raw(r);
    ChannelIndexOf(raw)
  }

  // ---- The five naming eras ----

  datatype Form =
    | Slash2026_03(channel: u32)
    | Bare2026_04
    | Underscore2026_05(channel: u32)
    | SlashBroadcast13May
    | Slash13May(group: nat, channel: u32)
    | Underscore2026_06(group: nat, channel: u32)

  function Print(f: Form, name: string): (raw: string) {
    match f
    case Slash2026_03(ch) => UNDERSCORE_PREFIX + (Decimal(ch) + ("/" + name))
    case Bare2026_04 => UNDERSCORE_PREFIX + name
    case Underscore2026_05(ch) => UNDERSCORE_PREFIX + (Decimal(ch) + ("_" + name))
    case SlashBroadcast13May => SLASH_PREFIX + name
    case Slash13May(g, ch) => UNDERSCORE_PREFIX + (Decimal(g) + ("_" + (Decimal(ch) + ("/" + name))))
    case Underscore2026_06(g, ch) => UNDERSCORE_PREFIX + (Decimal(g) + ("_" + (Decimal(ch) + ("_" + name))))
  }

  function FormChannel(f: Form): (channel: Option<u32>) {
    match f
    case Slash2026_03(ch) => Some(ch)
    case Bare2026_04 => None
    case Underscore2026_05(ch) => Some(ch)
    case SlashBroadcast13May => None
    case Slash13May(_, ch) => Some(ch)
    case Underscore2026_06(_, ch) => Some(ch)
  }

  predicate IsSlashForm(f: Form) { f.Slash2026_03? || f.SlashBroadcast13May? || f.Slash13May? }

  // ---- Proofs ----

  lemma {:induction false} ValueSnoc(s: string, c: char)
    requires AllDigits(s) && IsDigit(c)
    ensures AllDigits(s + [c]) && Value(s + [c]) == 10 * Value(s) + Digit(c)
  {
    assert (s + [c])[..|s|] == s;
  }

  lemma {:induction false} DecimalValue(n: nat)
    ensures Value(Decimal(n)) == n
  {
    var c := ('0' as int + n % 10) as char;
    if n < 10 {
      ValueSnoc([], c);
      assert [] + [c] == [c];
    } else {
      DecimalValue(n / 10);
      ValueSnoc(Decimal(n / 10), c);
    }
  }

  lemma ParseDecimal(n: u32)
    ensures ParseU32(Decimal(n)) == Some(n)
  {
    DecimalValue(n);
    assert IsDigit(Decimal(n)[0]);
  }

  /** The first `c` of `a + [c] + b` when `a` has none. */
  lemma {:induction false} FindAfter(a: string, c: char, b: string)
    requires c !in a
    ensures Find(a + ([c] + b), c) == Some(|a|)
  {
    var s := a + ([c] + b);
    assert s[|a|] == c;
    var i := Find(s, c).value;
    assert forall k :: 0 <= k < |a| ==> s[k] == a[k];
    assert forall j :: |a| < j <= |s| ==> s[..j][|a|] == c;
    assert s[i] == c && c !in s[..i];
  }

  lemma DigitsHaveNo(n: nat, c: char)
    requires !IsDigit(c)
    ensures c !in Decimal(n)
  {
  }

  lemma TokenAhead(ch: nat, rest: string)
    ensures var s := Decimal(ch) + ("_" + rest);
            Find(s, '_') == Some(|Decimal(ch)|) && s[..|Decimal(ch)|] == Decimal(ch) && s[|Decimal(ch)| + 1..] == rest
  {
    DigitsHaveNo(ch, '_');
    FindAfter(Decimal(ch), '_', rest);
    assert "_" + rest == ['_'] + rest;
  }

  lemma SplitToken(c: Option<u32>, n: nat, rest: string)
    ensures SplitFrom(c, Decimal(n) + ("_" + rest)) == SplitFrom(ParseU32(Decimal(n)), rest)
  {
    TokenAhead(n, rest);
  }

  lemma PrefixesDiffer(s: string)
    requires UNDERSCORE_PREFIX <= s
    ensures !(SLASH_PREFIX <= s)
  {
    assert s[16] == '_';
  }

  lemma SlashForms(rest: string, name: string, body: string)
    requires rest == body + ("/" + name) && '/' !in body
    ensures var raw := UNDERSCORE_PREFIX + rest;
            FwKeyOf(raw) == name && ChannelIndexOf(raw) == ParseU32(LastToken(body, '_'))
  {
    var raw := UNDERSCORE_PREFIX + rest;
    PrefixesDiffer(raw);
    assert raw[|UNDERSCORE_PREFIX|..] == rest;
    FindAfter(body, '/', name);
    assert "/" + name == ['/'] + name;
    assert rest[..|body|] == body && rest[|body| + 1..] == name;
  }

  lemma UnderscoreForms(rest: string)
    requires '/' !in rest
    ensures var raw := UNDERSCORE_PREFIX + rest;
            FwKeyOf(raw) == SplitFrom(None, rest).1 && ChannelIndexOf(raw) == SplitFrom(None, rest).0
  {
    var raw := UNDERSCORE_PREFIX + rest;
    PrefixesDiffer(raw);
    assert raw[|UNDERSCORE_PREFIX|..] == rest;
  }

  /** Main result: parsing undoes printing in every era. A slash form carries any
      name; an underscore form any name without a slash that does not itself begin
      with a digits-underscore token. */
  lemma ParseUndoesPrint(f: Form, name: string)
    requires !IsSlashForm(f) ==> '/' !in name && !StartsWithToken(name)
    ensures IsPerChannelName(Print(f, name))
    ensures FwKeyOf(Print(f, name)) == name
    ensures ChannelIndexOf(Print(f, name)) == FormChannel(f)
  {
    hide Decimal, ParseU32, StartsWithToken, LastToken, FwKeyOf, ChannelIndexOf, SplitFrom;
    match f
    case SlashBroadcast13May =>
      BroadcastForm(name);
    case Slash2026_03(ch) =>
      DigitsHaveNo(ch, '/'); DigitsHaveNo(ch, '_'); ParseDecimal(ch);
      LastOfOne(Decimal(ch));
      SlashForms(Decimal(ch) + ("/" + name), name, Decimal(ch));
    case Slash13May(g, ch) =>
      var body := Decimal(g) + ("_" + Decimal(ch));
      DigitsHaveNo(g, '/'); DigitsHaveNo(ch, '/'); DigitsHaveNo(ch, '_'); ParseDecimal(ch);
      assert '/' !in body;
      TokenAhead(g, Decimal(ch));
      LastOfTwo(g, Decimal(ch));
      LastOfOne(Decimal(ch));
      assert Decimal(g) + ("_" + (Decimal(ch) + ("/" + name))) == body + ("/" + name);
      SlashForms(body + ("/" + name), name, body);
    case Bare2026_04 =>
      UnderscoreForms(name);
      SplitStops(None, name);
    case Underscore2026_05(ch) =>
      DigitsHaveNo(ch, '/'); ParseDecimal(ch);
      UnderscoreForms(Decimal(ch) + ("_" + name));
      SplitToken(None, ch, name);
      SplitStops(Some(ch), name);
    case Underscore2026_06(g, ch) =>
      DigitsHaveNo(g, '/'); DigitsHaveNo(ch, '/'); ParseDecimal(ch);
      UnderscoreForms(Decimal(g) + ("_" + (Decimal(ch) + ("_" + name))));
      SplitToken(None, g, Decimal(ch) + ("_" + name));
      SplitToken(ParseU32(Decimal(g)), ch, name);
      SplitStops(Some(ch), name);
  }

  lemma BroadcastForm(name: string)
    ensures FwKeyOf(SLASH_PREFIX + name) == name && ChannelIndexOf(SLASH_PREFIX + name) == None
  {
  }

  lemma LastOfOne(s: string)
    requires '_' !in s
    ensures LastToken(s, '_') == s
  {
  }

  lemma LastOfTwo(g: nat, s: string)
    ensures LastToken(Decimal(g) + ("_" + s), '_') == LastToken(s, '_')
  {
    TokenAhead(g, s);
  }

  lemma SplitStops(c: Option<u32>, s: string)
    requires !StartsWithToken(s)
    ensures SplitFrom(c, s) == (c, s)
  {
  }

  /** What an underscore form puts before the name. */
  function Lead(f: Form): (s: string)
    requires !IsSlashForm(f)
  {
    match f
    case Bare2026_04 => ""
    case Underscore2026_05(ch) => Decimal(ch) + "_"
    case Underscore2026_06(g, ch) => Decimal(g) + ("_" + (Decimal(ch) + "_"))
  }

  lemma SlashInName(lead: string, name: string)
    requires '/' !in lead && '/' in name
    ensures |FwKeyOf(UNDERSCORE_PREFIX + (lead + name))| < |name|
  {
    var rest := lead + name;
    var raw := UNDERSCORE_PREFIX + rest;
    PrefixesDiffer(raw);
    assert raw[|UNDERSCORE_PREFIX|..] == rest;
    assert rest[|lead|..] == name;
    var i :| 0 <= i < |name| && name[i] == '/';
    assert rest[|lead| + i] == '/';
    assert forall k :: 0 <= k < |lead| ==> rest[k] == lead[k];
    assert rest[Find(rest, '/').value] == '/';
  }

  lemma {:induction false} SplitShorter(c: Option<u32>, s: string)
    ensures |SplitFrom(c, s).1| <= |s|
    ensures StartsWithToken(s) ==> |SplitFrom(c, s).1| < |s|
    decreases |s|
  {
    hide ParseU32, StartsWithToken, AllDigits, SplitFrom;
    if StartsWithToken(s) {
      var token, more := TokenHead(c, s);
      SplitShorter(ParseU32(token), more);
    } else {
      SplitStops(c, s);
    }
  }

  /** For the underscore forms the condition on the name is exact: any other name
      is not given back. */
  lemma NameConditionExact(f: Form, name: string)
    requires !IsSlashForm(f)
    ensures FwKeyOf(Print(f, name)) == name <==> '/' !in name && !StartsWithToken(name)
  {
    hide Decimal, ParseU32, StartsWithToken, FwKeyOf, SplitFrom;
    if '/' in name {
      match f {
        case Bare2026_04 => assert "" + name == name;
        case Underscore2026_05(ch) =>
          DigitsHaveNo(ch, '/');
          assert Decimal(ch) + ("_" + name) == (Decimal(ch) + "_") + name;
        case Underscore2026_06(g, ch) =>
          DigitsHaveNo(g, '/'); DigitsHaveNo(ch, '/');
          assert Decimal(g) + ("_" + (Decimal(ch) + ("_" + name))) == (Decimal(g) + ("_" + (Decimal(ch) + "_"))) + name;
      }
      SlashInName(Lead(f), name);
    } else if StartsWithToken(name) {
      match f
      case Bare2026_04 =>
        UnderscoreForms(name);
        SplitShorter(None, name);
      case Underscore2026_05(ch) =>
        DigitsHaveNo(ch, '/');
        UnderscoreForms(Decimal(ch) + ("_" + name));
        SplitToken(None, ch, name);
        SplitShorter(ParseU32(Decimal(ch)), name);
      case Underscore2026_06(g, ch) =>
        DigitsHaveNo(g, '/'); DigitsHaveNo(ch, '/');
        UnderscoreForms(Decimal(g) + ("_" + (Decimal(ch) + ("_" + name))));
        SplitToken(None, g, Decimal(ch) + ("_" + name));
        SplitToken(ParseU32(Decimal(g)), ch, name);
        SplitShorter(ParseU32(Decimal(ch)), name);
    } else {
      ParseUndoesPrint(f, name);
    }
  }

  // ---- The tokens consumed ----

  function Joined(tokens: seq<string>): (s: string) {
    if tokens == [] then "" else tokens[0] + ("_" + Joined(tokens[1..]))
  }

  lemma TokenHead(channel: Option<u32>, body: string) returns (token: string, more: string)
    requires StartsWithToken(body)
    ensures body == token + ("_" + more) && token != [] && AllDigits(token)
    ensures SplitFrom(channel, body) == SplitFrom(ParseU32(token), more)
  {
    hide ParseU32;
    var us := Find(body, '_').value;
    token, more := body[..us], body[us + 1..];
    assert body == token + (['_'] + more);
  }

  predicate Tokens(s: seq<string>) { forall i :: 0 <= i < |s| ==> s[i] != [] && AllDigits(s[i]) }

  /** Main result: the split consumes a maximal run of digits-underscore tokens,
      reports the value of the last one, and finds nothing more in its remainder. */
  lemma {:induction false} SplitConsumes(channel: Option<u32>, body: string) returns (tokens: seq<string>)
    ensures var (ch, rest) := SplitFrom(channel, body);
            && body == Joined(tokens) + rest
            && Tokens(tokens)
            && !StartsWithToken(rest)
            && ch == (if tokens == [] then channel else ParseU32(tokens[|tokens| - 1]))
            && SplitFrom(None, rest) == (None, rest)
    decreases |body|
  {
    hide ParseU32, StartsWithToken, AllDigits, SplitFrom;
    if !StartsWithToken(body) {
      tokens := [];
      assert Joined([]) + body == body;
      SplitStops(channel, body);
      SplitStops(None, body);
    } else {
      var token, more := TokenHead(channel, body);
      var others := SplitConsumes(ParseU32(token), more);
      tokens := [token] + others;
      assert tokens[1..] == others;
      var rest := SplitFrom(channel, body).1;
      assert token + ("_" + (Joined(others) + rest)) == token + ("_" + Joined(others)) + rest;
    }
  }
}
