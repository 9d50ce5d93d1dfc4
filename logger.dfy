/**
 * The logging helpers: removal of terminal escape sequences, the level
 * decorations of the custom formatter, the formatter chosen per
 * environment, the filter that quietens the Azure SDK, and the table of
 * friendly error messages.
 *
 * `logging.Formatter.format` itself is not part of this model: what it
 * renders after the emoji field is a parameter (`rendered`).
 */
module Logging {
  import opened Wrappers
  import Strings
  import Settings

  const Esc: char := '\U{1B}'

  /** An SGR control sequence, `ESC [ code m` (sections 5.4 and 8.3.117 of ECMA-48). */
  function Sgr(code: string): (r: string)
    ensures |r| == |code| + 3 && r[0] == Esc
  {
    [Esc, '['] + code + ['m']
  }

  /** `Colors`: the codes the formatter uses. */
  const Cyan: string := Sgr("96")
  const Blue: string := Sgr("94")
  const Yellow: string := Sgr("93")
  const Red: string := Sgr("91")
  const Bold: string := Sgr("1")
  const Reset: string := Sgr("0")

  /** A final byte of a two-character escape sequence (`ESC Fe`), `[` excluded. */
  predicate IsFe(c: char) {
    ('@' <= c <= 'Z') || ('\\' <= c <= '_')
  }

  /** Parameter bytes of a control sequence (0x30 to 0x3F). */
  predicate IsParameter(c: char) {
    '0' <= c <= '?'
  }

  /** Intermediate bytes of a control sequence (0x20 to 0x2F). */
  predicate IsIntermediate(c: char) {
    ' ' <= c <= '/'
  }

  /** Final bytes of a control sequence (0x40 to 0x7E). */
  predicate IsFinal(c: char) {
    '@' <= c <= '~'
  }

  /** The length of the leading run of parameter bytes. */
  function ParameterRun(s: string): (r: nat)
    ensures r <= |s|
    ensures forall i :: 0 <= i < r ==> IsParameter(s[i])
    ensures r < |s| ==> !IsParameter(s[r])
    decreases |s|
  {
    if s != [] && IsParameter(s[0]) then 1 + ParameterRun(s[1..]) else 0
  }

  /** The length of the leading run of intermediate bytes. */
  function IntermediateRun(s: string): (r: nat)
    ensures r <= |s|
    ensures forall i :: 0 <= i < r ==> IsIntermediate(s[i])
    ensures r < |s| ==> !IsIntermediate(s[r])
    decreases |s|
  {
    if s != [] && IsIntermediate(s[0]) then 1 + IntermediateRun(s[1..]) else 0
  }

  /**
   * `s[..n]` is a control sequence: `ESC [`, parameter bytes up to `k`,
   * intermediate bytes up to `n - 1`, and a final byte.
   */
  predicate IsCsi(s: string, k: nat, n: nat) {
    && 3 <= n <= |s| && 2 <= k < n
    && s[0] == Esc && s[1] == '[' && IsFinal(s[n - 1])
    && (forall i :: 2 <= i < k ==> IsParameter(s[i]))
    && (forall i :: k <= i < n - 1 ==> IsIntermediate(s[i]))
  }

  /**
   * The stripping pattern matches the first `n` characters of `s`: `ESC` and
   * one `Fe` byte, or a control sequence.
   */
  predicate PatternMatch(s: string, n: nat) {
    || (n == 2 && |s| >= 2 && s[0] == Esc && IsFe(s[1]))
    || (exists k: nat :: 2 <= k < n && IsCsi(s, k, n))
  }

  /**
   * The length of the escape sequence `s` starts with, if it starts with one
   * the stripping pattern matches. Parameter, intermediate and final bytes
   * are disjoint ranges, so the greedy runs find the only possible match.
   */
  function EscapeLength(s: string): (r: Option<nat>)
    ensures r.Some? ==> 2 <= r.value <= |s| && s[0] == Esc
  {
    if |s| < 2 || s[0] != Esc then None
    else if IsFe(s[1]) then Some(2)
    else if s[1] != '[' then None
    else
      var p := ParameterRun(s[2..]);
      var j := 2 + p + IntermediateRun(s[2 + p..]);
      if j < |s| && IsFinal(s[j]) then Some(j + 1) else None
  }

  /** A length `EscapeLength` finds is that of `ESC` and an `Fe` byte, or of a control sequence. */
  lemma EscapeLengthMatches(s: string)
    requires EscapeLength(s).Some?
    ensures var n := EscapeLength(s).value;
      (n == 2 && IsFe(s[1])) || IsCsi(s, 2 + ParameterRun(s[2..]), n)
  {
  }

  /** `EscapeLength` finds a match of the stripping pattern exactly when there is one, and its length. */
  lemma EscapeLengthExact(s: string, n: nat)
    ensures PatternMatch(s, n) <==> EscapeLength(s) == Some(n)
  {
    if EscapeLength(s) == Some(n) && !(n == 2 && IsFe(s[1])) {
      EscapeLengthMatches(s);
      assert IsCsi(s, 2 + ParameterRun(s[2..]), n);
    }
    if PatternMatch(s, n) && !(n == 2 && |s| >= 2 && s[0] == Esc && IsFe(s[1])) {
      var k: nat :| 2 <= k < n && IsCsi(s, k, n);
      var t := s[2..];
      assert t[k - 2] == s[k];
      assert forall i :: 0 <= i < k - 2 ==> t[i] == s[i + 2];
      assert ParameterRun(t) == k - 2;
      var u := s[k..];
      assert u[n - 1 - k] == s[n - 1];
      assert forall i :: 0 <= i < n - 1 - k ==> u[i] == s[i + k];
      assert IntermediateRun(u) == n - 1 - k;
    }
  }

  /** `Colors.strip_colors`: every matched escape sequence is removed, scanning from the left. */
  function StripColors(s: string): (r: string)
    ensures |r| <= |s|
    decreases |s|
  {
    if s == [] then []
    else match EscapeLength(s)
      case Some(n) => StripColors(s[n..])
      case None => [s[0]] + StripColors(s[1..])
  }

  /** An escape character that starts no match of the pattern is kept, and the scan goes on after it. */
  lemma UnmatchedEscKept(s: string)
    requires s != [] && s[0] == Esc
    requires forall n: nat :: !PatternMatch(s, n)
    ensures StripColors(s) == [Esc] + StripColors(s[1..])
  {
    if EscapeLength(s).Some? {
      EscapeLengthExact(s, EscapeLength(s).value);
    }
  }

  /** `ESC` followed by a byte that is neither `Fe` nor `[` stays in the text. */
  lemma LoneEscKept(c: char, t: string)
    requires !IsFe(c) && c != '['
    ensures StripColors([Esc, c] + t) == [Esc] + StripColors([c] + t)
  {
    var s := [Esc, c] + t;
    assert s[1] == c && s[1..] == [c] + t;
  }

  /** `ESC [` followed by parameter bytes and nothing more is an unterminated control sequence, and stays. */
  lemma UnterminatedCsiKept(code: string)
    requires forall i :: 0 <= i < |code| ==> IsParameter(code[i])
    ensures StripColors([Esc, '['] + code) == [Esc] + StripColors(['['] + code)
  {
    var s := [Esc, '['] + code;
    assert s[0] == Esc && s[1] == '[' && s[2..] == code && s[1..] == ['['] + code;
    assert ParameterRun(code) == |code|;
    assert s[2 + |code|..] == [];
    CsiLength(s, |code|, 0);
  }

  /** Text without an escape character is left as it is. */
  lemma {:induction false} NoEscapeUnchanged(s: string)
    requires Esc !in s
    ensures StripColors(s) == s
    decreases |s|
  {
    if s != [] {
      assert Esc !in s[1..];
      NoEscapeUnchanged(s[1..]);
    }
  }

  lemma {:induction false} ParameterRunAppend(a: string, y: string)
    requires y != [] && !IsParameter(y[0])
    ensures ParameterRun(a + y) == ParameterRun(a)
    decreases |a|
  {
    if a != [] {
      assert (a + y)[1..] == a[1..] + y;
      ParameterRunAppend(a[1..], y);
    } else {
      assert a + y == y;
    }
  }

  lemma {:induction false} IntermediateRunAppend(a: string, y: string)
    requires y != [] && !IsIntermediate(y[0])
    ensures IntermediateRun(a + y) == IntermediateRun(a)
    decreases |a|
  {
    if a != [] {
      assert (a + y)[1..] == a[1..] + y;
      IntermediateRunAppend(a[1..], y);
    } else {
      assert a + y == y;
    }
  }

  /** `EscapeLength` of text opening a control sequence, given its two runs. */
  lemma CsiLength(s: string, p: nat, q: nat)
    requires |s| >= 2 && s[0] == Esc && s[1] == '['
    requires ParameterRun(s[2..]) == p && IntermediateRun(s[2 + p..]) == q
    ensures EscapeLength(s) == if 2 + p + q < |s| && IsFinal(s[2 + p + q]) then Some(2 + p + q + 1) else None
  {
  }

  /** The two runs over `t` stop inside `t`, or at a following `ESC`. */
  lemma RunsBeforeEsc(t: string, y: string)
    requires y != [] && y[0] == Esc
    ensures var p := ParameterRun(t);
      var j := p + IntermediateRun(t[p..]);
      && ParameterRun(t + y) == p
      && IntermediateRun((t + y)[p..]) == IntermediateRun(t[p..])
      && j < |t + y| && (t + y)[j] == (if j < |t| then t[j] else Esc)
  {
    ParameterRunAppend(t, y);
    var p := ParameterRun(t);
    assert (t + y)[p..] == t[p..] + y;
    IntermediateRunAppend(t[p..], y);
  }

  /** A control sequence opened inside `x` ends, or fails to end, inside `x`. */
  lemma CsiBeforeEsc(x: string, y: string)
    requires |x| >= 2 && x[0] == Esc && x[1] == '[' && y != [] && y[0] == Esc
    ensures EscapeLength(x + y) == EscapeLength(x)
  {
    var s := x + y;
    var t := x[2..];
    assert s[0] == Esc && s[1] == '[' && s[2..] == t + y;
    RunsBeforeEsc(t, y);
    var p := ParameterRun(t);
    var q := IntermediateRun(t[p..]);
    assert s[2 + p..] == (t + y)[p..];
    assert x[2 + p..] == t[p..];
    assert s[2 + p + q] == (t + y)[p + q];
    assert p + q < |t| ==> x[2 + p + q] == t[p + q];
    CsiLength(x, p, q);
    CsiLength(s, p, q);
  }

  /** A sequence that starts inside `x` never runs on into a following `ESC`. */
  lemma EscapeLengthBeforeEsc(x: string, y: string)
    requires x != [] && y != [] && y[0] == Esc
    ensures EscapeLength(x + y) == EscapeLength(x)
  {
    var s := x + y;
    if |x| < 2 {
      assert s[0] == x[0] && s[1] == Esc;
    } else if x[0] == Esc && !IsFe(x[1]) && x[1] == '[' {
      CsiBeforeEsc(x, y);
    } else {
      assert s[0] == x[0] && s[1] == x[1];
    }
  }

  /** Stripping splits at an escape character. */
  lemma {:induction false} StripSplitsAtEsc(x: string, y: string)
    requires y != [] && y[0] == Esc
    ensures StripColors(x + y) == StripColors(x) + StripColors(y)
    decreases |x|
  {
    if x == [] {
      assert x + y == y;
    } else {
      EscapeLengthBeforeEsc(x, y);
      match EscapeLength(x)
      case Some(n) =>
        assert (x + y)[n..] == x[n..] + y;
        StripSplitsAtEsc(x[n..], y);
      case None =>
        assert (x + y)[1..] == x[1..] + y;
        StripSplitsAtEsc(x[1..], y);
    }
  }

  lemma {:induction false} ParameterRunOfParameters(code: string, t: string)
    requires forall i :: 0 <= i < |code| ==> IsParameter(code[i])
    requires t != [] && !IsParameter(t[0])
    ensures ParameterRun(code + t) == |code|
    decreases |code|
  {
    if code != [] {
      assert (code + t)[1..] == code[1..] + t;
      ParameterRunOfParameters(code[1..], t);
    } else {
      assert code + t == t;
    }
  }

  /** An SGR sequence in front of any text is removed whole. */
  lemma SgrStrips(code: string, rest: string)
    requires forall i :: 0 <= i < |code| ==> IsParameter(code[i])
    ensures StripColors(Sgr(code) + rest) == StripColors(rest)
  {
    var s := Sgr(code) + rest;
    assert s[2..] == code + (['m'] + rest);
    ParameterRunOfParameters(code, ['m'] + rest);
    assert s[2 + |code|..] == ['m'] + rest;
    assert EscapeLength(s) == Some(|code| + 3);
    assert s[|code| + 3..] == rest;
  }

  /** `EMOJI_MAP.get(levelname, '  ')`. */
  function EmojiFor(level: string): (r: string)
    ensures Esc !in r
  {
    if level == "DEBUG" then "\U{1F50D}"
    else if level == "INFO" then "\U{2139}\U{FE0F} "
    else if level == "WARNING" then "\U{26A0}\U{FE0F} "
    else if level == "ERROR" then "\U{274C}"
    else if level == "CRITICAL" then "\U{1F6A8}"
    else "  "
  }

  /** `COLOR_MAP.get(levelname, '')`. */
  function ColorFor(level: string): string {
    if level == "DEBUG" then Cyan
    else if level == "INFO" then Blue
    else if level == "WARNING" then Yellow
    else if level == "ERROR" then Red
    else if level == "CRITICAL" then Red + Bold
    else ""
  }

  /** Stripping removes the level colour. */
  lemma ColorStrips(level: string, rest: string)
    ensures StripColors(ColorFor(level) + rest) == StripColors(rest)
  {
    if level == "CRITICAL" {
      assert ColorFor(level) + rest == Sgr("91") + (Sgr("1") + rest);
      SgrStrips("91", Sgr("1") + rest);
      SgrStrips("1", rest);
    } else if level == "DEBUG" {
      SgrStrips("96", rest);
    } else if level == "INFO" {
      SgrStrips("94", rest);
    } else if level == "WARNING" {
      SgrStrips("93", rest);
    } else if level == "ERROR" {
      SgrStrips("91", rest);
    } else {
      assert ColorFor(level) + rest == rest;
    }
  }

  /** The three switches of `CustomFormatter`. */
  datatype FormatterOptions = FormatterOptions(useColors: bool, useEmoji: bool, detailed: bool)

  /** The `emoji` field `format` sets on the record. */
  function RecordEmoji(o: FormatterOptions, level: string): (r: string)
    ensures o.useEmoji && o.detailed ==> r == EmojiFor(level)
    ensures !(o.useEmoji && o.detailed) ==> r == ""
  {
    if o.useEmoji && o.detailed then EmojiFor(level) else ""
  }

  /**
   * What `format` returns: the emoji (detailed layout only) before the rest
   * of the line, wrapped in the level colour and a reset when colours are on
   * in the detailed layout.
   */
  function Formatted(o: FormatterOptions, level: string, rendered: string): string {
    var base := if o.detailed then RecordEmoji(o, level) + rendered else rendered;
    if o.useColors && o.detailed then ColorFor(level) + base + Reset else base
  }

  /** Colours are the only difference colours make: stripping a coloured line gives the plain one, stripped. */
  lemma ColorsOnlyWrap(emoji: bool, level: string, rendered: string)
    ensures StripColors(Formatted(FormatterOptions(true, emoji, true), level, rendered))
         == StripColors(Formatted(FormatterOptions(false, emoji, true), level, rendered))
  {
    var base := Formatted(FormatterOptions(false, emoji, true), level, rendered);
    assert Formatted(FormatterOptions(true, emoji, true), level, rendered) == (ColorFor(level) + base) + Reset;
    StripSplitsAtEsc(ColorFor(level) + base, Reset);
    ColorStrips(level, base);
    SgrStrips("0", []);
    assert Reset + [] == Reset;
  }

  /** Without colours, a line holds an escape character only where the rendered text does. */
  lemma PlainLinesHaveNoEscape(o: FormatterOptions, level: string, rendered: string)
    requires !(o.useColors && o.detailed) && Esc !in rendered
    ensures Esc !in Formatted(o, level, rendered)
    ensures StripColors(Formatted(o, level, rendered)) == Formatted(o, level, rendered)
  {
    NoEscapeUnchanged(Formatted(o, level, rendered));
  }

  /** The formatter `setup_logging` installs for an environment. */
  function FormatterFor(env: string): (r: FormatterOptions)
    ensures Settings.IsDevelopment(env) ==> r == FormatterOptions(true, true, true)
    ensures Settings.IsStaging(env) ==> r == FormatterOptions(false, true, true)
    ensures !Settings.IsDevelopment(env) && !Settings.IsStaging(env) ==> r == FormatterOptions(false, false, false)
  {
    if Settings.IsDevelopment(env) then FormatterOptions(true, true, true)
    else if Settings.IsStaging(env) then FormatterOptions(false, true, true)
    else FormatterOptions(false, false, false)
  }

  /** Production output is the rendered line as it is: no emoji, no colour. */
  lemma ProductionLinesArePlain(level: string, rendered: string)
    ensures Formatted(FormatterFor("production"), level, rendered) == rendered
  {
  }

  /** Development output, stripped of its colours, is the staging output stripped. */
  lemma DevelopmentIsColouredStaging(level: string, rendered: string)
    ensures StripColors(Formatted(FormatterFor("development"), level, rendered))
         == StripColors(Formatted(FormatterFor("staging"), level, rendered))
  {
    ColorsOnlyWrap(true, level, rendered);
  }

  /** A log record as the formatter sees it; `format` sets its `emoji` field. */
  class LogRecord {
    const levelName: string
    var emoji: string

    constructor (levelName: string)
      ensures this.levelName == levelName && emoji == ""
    {
      this.levelName := levelName;
      emoji := "";
    }
  }

  class CustomFormatter {
    const options: FormatterOptions

    constructor (useColors: bool := true, useEmoji: bool := true, detailed: bool := true)
      ensures options == FormatterOptions(useColors, useEmoji, detailed)
    {
      options := FormatterOptions(useColors, useEmoji, detailed);
    }

    /** `format`: sets the record's emoji, then decorates the base rendering. */
    method Format(record: LogRecord, rendered: string) returns (formatted: string)
      modifies record`emoji
      ensures record.emoji == RecordEmoji(options, record.levelName)
      ensures formatted == Formatted(options, record.levelName, rendered)
    {
      if options.useEmoji && options.detailed {
        record.emoji := EmojiFor(record.levelName);
      } else {
        record.emoji := "";
      }
      formatted := if options.detailed then record.emoji + rendered else rendered;
      if options.useColors && options.detailed {
        var color := ColorFor(record.levelName);
        formatted := color + formatted + Reset;
      }
    }
  }

  /** `logging.WARNING`. */
  const Warning: int := 30

  /** `AzureLogFilter.filter`: only Azure records outside development are held to WARNING and above. */
  function AzureFilter(environment: string, name: string, levelNo: int): (r: bool)
    ensures !Strings.StartsWith(name, "azure") ==> r
    ensures environment == "development" ==> r
    ensures Strings.StartsWith(name, "azure") && environment != "development" ==> (r <==> levelNo >= 30)
  {
    if !Strings.StartsWith(name, "azure") then true
    else if environment == "development" then true
    else levelNo >= Warning
  }

  /** A record that passes the filter still passes at any higher level. */
  lemma AzureFilterMonotone(environment: string, name: string, levelNo: int, higher: int)
    requires AzureFilter(environment, name, levelNo) && levelNo <= higher
    ensures AzureFilter(environment, name, higher)
  {
  }

  /** The entries of the friendly-message table. */
  datatype Friendly = ConnectionFailure | Timeout | AuthenticationFailure | MissingKey | FileMissing

  /** The table, in the order it is searched. */
  const FriendlyTable: seq<Friendly> := [ConnectionFailure, Timeout, AuthenticationFailure, MissingKey, FileMissing]

  /** The error name an entry matches. */
  function FriendlyName(f: Friendly): string {
    match f
    case ConnectionFailure => "ConnectionError"
    case Timeout => "TimeoutError"
    case AuthenticationFailure => "AuthenticationError"
    case MissingKey => "KeyError"
    case FileMissing => "FileNotFoundError"
  }

  /** The text an entry shows; the file message quotes the exception text. */
  function FriendlyMessage(f: Friendly, errorMessage: string): string {
    match f
    case ConnectionFailure =>
      "\U{274C} Não foi possível conectar ao servidor Azure\n\U{1F4A1} Verifique sua conexão de internet"
    case Timeout =>
      "\U{274C} Tempo esgotado ao conectar com Azure\n\U{1F4A1} Tente novamente em alguns instantes"
    case AuthenticationFailure =>
      "\U{274C} Falha na autenticação com Azure\n\U{1F4A1} Verifique AZURE_VOICELIVE_API_KEY no arquivo .env"
    case MissingKey =>
      "\U{274C} Configuração faltando\n\U{1F4A1} Verifique se todas as variáveis necessárias estão no .env"
    case FileMissing =>
      "\U{274C} Arquivo não encontrado\n\U{1F4A1} Verifique se o arquivo existe: " + errorMessage
  }

  /** An entry applies when its name is part of the type name, or, ignoring case, of the message. */
  predicate Applies(f: Friendly, errorType: string, errorMessage: string) {
    Strings.Contains(errorType, FriendlyName(f))
    || Strings.Contains(Strings.Lower(errorMessage), Strings.Lower(FriendlyName(f)))
  }

  /** The position of the first entry that applies. */
  function FirstApplying(table: seq<Friendly>, errorType: string, errorMessage: string): (r: Option<nat>)
    ensures r.Some? ==> r.value < |table| && Applies(table[r.value], errorType, errorMessage)
    ensures r.Some? ==> forall j :: 0 <= j < r.value ==> !Applies(table[j], errorType, errorMessage)
    ensures r.None? ==> forall j :: 0 <= j < |table| ==> !Applies(table[j], errorType, errorMessage)
    decreases |table|
  {
    if table == [] then None
    else if Applies(table[0], errorType, errorMessage) then Some(0)
    else
      assert forall j :: 1 <= j < |table| ==> table[j] == table[1..][j - 1];
      match FirstApplying(table[1..], errorType, errorMessage)
      case None => None
      case Some(i) => Some(i + 1)
  }

  /** An entry that applies, with none before it applying, is the first that applies. */
  lemma FirstApplyingAt(table: seq<Friendly>, i: nat, errorType: string, errorMessage: string)
    requires i < |table| && Applies(table[i], errorType, errorMessage)
    requires forall j :: 0 <= j < i ==> !Applies(table[j], errorType, errorMessage)
    ensures FirstApplying(table, errorType, errorMessage) == Some(i)
  {
  }

  /** The text shown when no entry applies. */
  function GenericError(environment: string, errorType: string, errorMessage: string): string {
    if environment == "development" then "\U{274C} Erro: " + errorType + "\n\U{1F50D} Detalhes: " + errorMessage
    else "\U{274C} Erro inesperado\n\U{1F4A1} Consulte os logs para mais detalhes"
  }

  /** `get_user_friendly_error`: the first entry that applies, in table order, or the generic text. */
  method UserFriendlyError(errorType: string, errorMessage: string, environment: string) returns (text: string)
    ensures match FirstApplying(FriendlyTable, errorType, errorMessage)
      case Some(i) => text == FriendlyMessage(FriendlyTable[i], errorMessage)
      case None => text == GenericError(environment, errorType, errorMessage)
  {
    for i := 0 to |FriendlyTable|
      invariant forall j :: 0 <= j < i ==> !Applies(FriendlyTable[j], errorType, errorMessage)
    {
      if Applies(FriendlyTable[i], errorType, errorMessage) {
        FirstApplyingAt(FriendlyTable, i, errorType, errorMessage);
        return FriendlyMessage(FriendlyTable[i], errorMessage);
      }
    }
    assert FirstApplying(FriendlyTable, errorType, errorMessage).None?;
    return GenericError(environment, errorType, errorMessage);
  }

  /** A type name containing `ConnectionError` always gets the connection message, the first entry. */
  lemma ConnectionErrorsComeFirst(errorType: string, errorMessage: string)
    requires Strings.Contains(errorType, "ConnectionError")
    ensures FirstApplying(FriendlyTable, errorType, errorMessage) == Some(0)
  {
    assert Applies(FriendlyTable[0], errorType, errorMessage);
  }

  /** Outside development, an unmatched error never shows its type or message. */
  lemma GenericErrorHidesDetails(environment: string, errorType: string, errorMessage: string)
    requires environment != "development"
    ensures GenericError(environment, errorType, errorMessage) == GenericError("production", "", "")
  {
  }
}
