/** Values shared by every part of the model: optional values, the machine
    integers the ledger stores, and the telemetry a provider reports. */
module Types {

  datatype Option<+T> = None | Some(value: T)

  const U64_MAX: int := 0xFFFF_FFFF_FFFF_FFFF
  const I64_MAX: int := 0x7FFF_FFFF_FFFF_FFFF

  type u64 = x: int | 0 <= x <= U64_MAX
  type i64 = x: int | -I64_MAX - 1 <= x <= I64_MAX

  function Min(x: int, y: int): int { if x <= y then x else y }

  function Max(x: int, y: int): int { if x >= y then x else y }

  /** `u64::saturating_add`. */
  function SaturatingAdd(x: u64, y: u64): u64 { Min(x + y, U64_MAX) }

  /** `i64::try_from(value).unwrap_or(i64::MAX)`. */
  function SaturatedI64(value: u64): i64 { Min(value, I64_MAX) }

  /** One turn of one agent: the primary key of the turns table. */
  datatype Key = Key(agent: string, seqNo: nat)

  datatype TokenUsage = TokenUsage(input: u64, output: u64, cached: u64)

  const NO_TOKENS := TokenUsage(0, 0, 0)

  datatype Cost = Reported(microUsd: u64) | Unreported | NotPriced {
    function MicroUsdOrZero(): u64 { if Reported? then microUsd else 0 }
  }

  datatype Usage = Tracked(tokens: TokenUsage) | Missing | NotTracked {
    function TokensOrZero(): TokenUsage { if Tracked? then tokens else NO_TOKENS }
  }

  datatype ExchangeFailure = LimitFailure | ReportedFailure

  /** A finished exchange, whether it succeeded or not. */
  datatype Exchange = Exchange(
    reply: string,
    session: Option<string>,
    cost: Cost,
    costComplete: bool,
    usage: Usage,
    usageComplete: bool,
    providerTurns: Option<nat>,
    elapsedMs: u64,
    error: Option<string>,
    failureKind: Option<ExchangeFailure>)

  // The white space Rust's `str::trim` removes (the Unicode White_Space property).
  predicate IsWhiteSpace(c: char) {
    || '\U{0009}' <= c <= '\U{000D}'
    || c in {' ', '\U{0085}', '\U{00A0}', '\U{1680}', '\U{2028}', '\U{2029}', '\U{202F}', '\U{205F}', '\U{3000}'}
    || '\U{2000}' <= c <= '\U{200A}'
  }

  function TrimStart(s: string): string {
    if s != "" && IsWhiteSpace(s[0]) then TrimStart(s[1..]) else s
  }

  function TrimEnd(s: string): string {
    if s != "" && IsWhiteSpace(s[|s| - 1]) then TrimEnd(s[..|s| - 1]) else s
  }

  /** `str::trim`. */
  function Trim(s: string): string { TrimEnd(TrimStart(s)) }

  /** `s.trim().is_empty()`: nothing but white space. */
  predicate Blank(s: string) { forall c | c in s :: IsWhiteSpace(c) }

  lemma {:induction false} TrimStartKeepsContent(s: string)
    ensures Blank(TrimStart(s)) <==> Blank(s)
    ensures TrimStart(s) == "" <==> Blank(s)
  {
    if s != "" && IsWhiteSpace(s[0]) {
      assert s == [s[0]] + s[1..];
      TrimStartKeepsContent(s[1..]);
    } else if s != "" {
      assert s[0] in s;
    }
  }

  lemma {:induction false} TrimEndKeepsContent(s: string)
    ensures Blank(TrimEnd(s)) <==> Blank(s)
    ensures TrimEnd(s) == "" <==> Blank(s)
  {
    if s != "" && IsWhiteSpace(s[|s| - 1]) {
      assert s == s[..|s| - 1] + [s[|s| - 1]];
      TrimEndKeepsContent(s[..|s| - 1]);
    } else if s != "" {
      assert s[|s| - 1] in s;
    }
  }

  lemma {:induction false} TrimStartCuts(s: string)
    ensures |TrimStart(s)| <= |s| && TrimStart(s) == s[|s| - |TrimStart(s)|..] && Blank(s[..|s| - |TrimStart(s)|])
    ensures TrimStart(s) != "" ==> !IsWhiteSpace(TrimStart(s)[0])
  {
    if s != "" && IsWhiteSpace(s[0]) {
      var rest := s[1..];
      TrimStartCuts(rest);
      var n := |rest| - |TrimStart(rest)|;
      assert s[..n + 1] == [s[0]] + rest[..n];
    }
  }

  lemma {:induction false} TrimEndCuts(s: string)
    ensures |TrimEnd(s)| <= |s| && TrimEnd(s) == s[..|TrimEnd(s)|] && Blank(s[|TrimEnd(s)|..])
    ensures TrimEnd(s) != "" ==> !IsWhiteSpace(TrimEnd(s)[|TrimEnd(s)| - 1])
  {
    if s != "" && IsWhiteSpace(s[|s| - 1]) {
      var init := s[..|s| - 1];
      TrimEndCuts(init);
      assert s[|TrimEnd(s)|..] == init[|TrimEnd(s)|..] + [s[|s| - 1]];
    }
  }

  predicate Around(s: string, before: string, t: string, after: string) {
    s == before + t + after && Blank(before) && Blank(after)
  }

  /** `t` is `s` without the white space around it. */
  ghost predicate Trims(s: string, t: string) {
    && (exists before, after :: Around(s, before, t, after))
    && (t != "" ==> !IsWhiteSpace(t[0]) && !IsWhiteSpace(t[|t| - 1]))
  }

  /** Trimming cuts white space off both ends and nothing else. */
  lemma TrimCutsBothEnds(s: string)
    ensures Trims(s, Trim(s))
  {
    TrimStartCuts(s);
    TrimEndCuts(TrimStart(s));
    TwoCuts(s, |s| - |TrimStart(s)|, TrimStart(s), TrimEnd(TrimStart(s)));
  }

  lemma TwoCuts(s: string, n: nat, start: string, t: string)
    requires n <= |s| && start == s[n..] && Blank(s[..n])
    requires |t| <= |start| && t == start[..|t|] && Blank(start[|t|..])
    requires start != "" ==> !IsWhiteSpace(start[0])
    requires t != "" ==> !IsWhiteSpace(t[|t| - 1])
    ensures Trims(s, t)
  {
    assert Around(s, s[..n], t, start[|t|..]);
  }

  function LowerChar(c: char): char { if 'A' <= c <= 'Z' then c - 'A' + 'a' else c }

  /** `str::to_lowercase`, of the ASCII letters. */
  function Lower(s: string): string { seq(|s|, i requires 0 <= i < |s| => LowerChar(s[i])) }

  /** Trimming leaves nothing exactly of a blank string, and a reason that was
      not blank before its trim is not blank when it is checked again. */
  lemma TrimKeepsBlankness(s: string)
    ensures Trim(s) == "" <==> Blank(s)
    ensures Blank(Trim(s)) <==> Blank(s)
  {
    TrimStartKeepsContent(s);
    TrimEndKeepsContent(TrimStart(s));
  }
}
