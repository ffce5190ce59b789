/** Prompt and script templates: `{name}` placeholders filled from the run's state. */
module Templates {
  import opened Wrappers
  import opened Channels

  // ----- what a template is -----

  /** A template read from left to right: text, a placeholder, and so on to a last text. */
  datatype Template = Last(text: string) | Hole(before: string, key: string, rest: Template)

  /** A placeholder between what comes before and after it. */
  function Joined(before: string, key: string, rest: string): (s: string)
    ensures |s| == |before| + 2 + |key| + |rest|
  {
    before + ("{" + key) + ("}" + rest)
  }

  function Print(t: Template): string {
    match t
    case Last(text) => text
    case Hole(before, key, rest) => Joined(before, key, Print(rest))
  }

  /** The position of the first `c` from `i` on, or the length. */
  function Find(s: string, c: char, i: nat): (n: nat)
    requires i <= |s|
    ensures i <= n <= |s| && (n < |s| ==> s[n] == c)
    decreases |s| - i
  {
    if i == |s| || s[i] == c then i else Find(s, c, i + 1)
  }

  lemma {:induction false} FindSkips(s: string, c: char, i: nat)
    requires i <= |s|
    ensures Without(s[i..Find(s, c, i)], c)
    decreases |s| - i
  {
    if i < |s| && s[i] != c {
      FindSkips(s, c, i + 1);
      var n := Find(s, c, i);
      assert s[i..n] == [s[i]] + s[i + 1..n];
    }
  }

  ghost predicate Without(s: string, c: char) {
    forall i | 0 <= i < |s| :: s[i] != c
  }

  /** Every opening brace that a later brace closes opens a placeholder; nothing else does. */
  ghost predicate Proper(t: Template) {
    match t
    case Last(text) => Find(text, '}', Find(text, '{', 0)) == |text|
    case Hole(before, key, rest) => Without(before, '{') && Without(key, '}') && Proper(rest)
  }

  function Parse(s: string): Template
    decreases |s|
  {
    var open := Find(s, '{', 0);
    var close := Find(s, '}', open);
    if close == |s| then Last(s) else Hole(s[..open], s[open + 1..close], Parse(s[close + 1..]))
  }

  /** A string is read as a template in exactly one way. */
  lemma ParseIsTheOnlyReading(s: string, t: Template)
    ensures Proper(t) && Print(t) == s <==> t == Parse(s)
  {
    ParsePrints(s);
    if Proper(t) {
      PrintParses(t);
    }
  }

  lemma {:induction false} ParsePrints(s: string)
    ensures Proper(Parse(s)) && Print(Parse(s)) == s
    decreases |s|
  {
    var open := Find(s, '{', 0);
    var close := Find(s, '}', open);
    hide Find, Joined, Without;
    if close < |s| {
      ParsePrints(s[close + 1..]);
      FindSkips(s, '{', 0);
      FindSkips(s, '}', open);
      WithoutTail(s[open..close], '}');
      assert s[open..close][1..] == s[open + 1..close];
      JoinSplit(s, open, close);
    }
  }

  lemma WithoutTail(s: string, c: char)
    requires Without(s, c) && s != ""
    ensures Without(s[1..], c)
  {
  }

  lemma JoinSplit(s: string, open: nat, close: nat)
    requires open < close < |s| && s[open] == '{' && s[close] == '}'
    ensures s == Joined(s[..open], s[open + 1..close], s[close + 1..])
  {
    assert s[open..close] == "{" + s[open + 1..close] && s[close..] == "}" + s[close + 1..];
    assert s == s[..open] + s[open..close] + s[close..];
  }

  lemma {:induction false} PrintParses(t: Template)
    requires Proper(t)
    ensures Parse(Print(t)) == t
  {
    hide Find, Joined, Without;
    match t
    case Last(_) =>
    case Hole(before, key, rest) =>
      PrintParses(rest);
      HoleParses(before, key, Print(rest));
  }

  lemma HoleParses(before: string, key: string, rest: string)
    requires Without(before, '{') && Without(key, '}')
    ensures Parse(Joined(before, key, rest)) == Hole(before, key, Parse(rest))
  {
    hide Find, Without, Joined, Parse;
    PartsFound(before, key, rest);
    ParseUnfolds(Joined(before, key, rest), |before|, |before| + |key| + 1);
  }

  lemma ParseUnfolds(s: string, open: nat, close: nat)
    requires open == Find(s, '{', 0) && close == Find(s, '}', open) && close < |s|
    ensures Parse(s) == Hole(s[..open], s[open + 1..close], Parse(s[close + 1..]))
  {
    hide Find;
  }

  lemma PartsFound(before: string, key: string, rest: string)
    requires Without(before, '{') && Without(key, '}')
    ensures var s, o := Joined(before, key, rest), |before|;
      var c := o + |key| + 1;
      && Find(s, '{', 0) == o && Find(s, '}', o) == c
      && s[..o] == before && s[o + 1..c] == key && s[c + 1..] == rest
  {
    hide Find;
    var s, o := Joined(before, key, rest), |before|;
    var c := o + |key| + 1;
    assert s[o] == '{' && s[c] == '}';
    assert s[..o] == before && s[o + 1..c] == key && s[c + 1..] == rest;
    forall j | 0 <= j < o ensures s[j] != '{' {
      assert s[j] == before[j];
    }
    forall j | o < j < c ensures s[j] != '}' {
      assert s[j] == key[j - o - 1];
    }
    FoundAt(s, '{', 0, o);
    FoundAt(s, '}', o, c);
  }

  lemma {:induction false} FoundAt(s: string, c: char, i: nat, n: nat)
    requires i <= n < |s| && s[n] == c && forall j | i <= j < n :: s[j] != c
    ensures Find(s, c, i) == n
    decreases n - i
  {
    if i < n {
      FoundAt(s, c, i + 1, n);
    }
  }

  // ----- filling -----

  function Resolve(key: string, state: State): Option<string> {
    if key == "task" then Some(state.task) else Lookup(state.vars, key)
  }

  function Filled(key: string, state: State, escape: string -> string): string {
    match Resolve(key, state)
    case Some(value) => escape(value)
    case None => "{" + key + "}"
  }

  /** Known placeholders give their escaped value, unknown ones stay as they are. */
  function Fill(t: Template, state: State, escape: string -> string): string {
    match t
    case Last(text) => text
    case Hole(before, key, rest) => before + Filled(key, state, escape) + Fill(rest, state, escape)
  }

  lemma FillUnfolds(s: string, state: State, escape: string -> string)
    ensures var open := Find(s, '{', 0);
      var close := Find(s, '}', open);
      Fill(Parse(s), state, escape)
      == if close == |s| then s
         else s[..open] + Filled(s[open + 1..close], state, escape) + Fill(Parse(s[close + 1..]), state, escape)
  {
    hide Find, Filled;
  }

  /** A placeholder for the task or for a variable gives that one's value, escaped; any other stays
      as it is. */
  lemma PlaceholderGivesItsValue(before: string, key: string, rest: string, state: State, escape: string -> string)
    requires Without(before, '{') && Without(key, '}')
    ensures Fill(Parse(before + "{" + key + "}" + rest), state, escape) == before + (
      if key == "task" then escape(state.task)
      else if key in state.vars then escape(state.vars[key])
      else "{" + key + "}") + Fill(Parse(rest), state, escape)
  {
    HoleParses(before, key, rest);
    assert Joined(before, key, rest) == before + "{" + key + "}" + rest;
    hide Parse;
  }

  lemma Reassociate(a: string, b: string, c: string, d: string)
    ensures a + (b + c + d) == a + b + c + d
  {
  }

  /** One pass over the template; values are never looked at again. */
  method RenderWith(template: string, state: State, escape: string -> string) returns (out: string)
    ensures out == Fill(Parse(template), state, escape)
  {
    hide Find, Fill, Parse;
    out := "";
    var rest := template;
    var open := Find(rest, '{', 0);
    while open < |rest|
      invariant open == Find(rest, '{', 0)
      invariant out + Fill(Parse(rest), state, escape) == Fill(Parse(template), state, escape)
      decreases |rest|
    {
      FillUnfolds(rest, state, escape);
      ghost var was := out;
      out := out + rest[..open];
      var close := Find(rest, '}', open);
      if close == |rest| {
        assert rest == rest[..open] + rest[open..];
        return out + rest[open..];
      }
      var key := rest[open + 1..close];
      match Resolve(key, state) {
        case Some(value) => out := out + escape(value);
        case None =>
          assert rest[open..close + 1] == "{" + key + "}";
          out := out + rest[open..close + 1];
      }
      hide Filled;
      Reassociate(was, rest[..open], Filled(key, state, escape), Fill(Parse(rest[close + 1..]), state, escape));
      rest := rest[close + 1..];
      open := Find(rest, '{', 0);
    }
    FillUnfolds(rest, state, escape);
    out := out + rest;
  }

  // ----- shell quoting -----

  function Escaped(value: string): string {
    if value == "" then "" else (if value[0] == '\'' then "'\\''" else [value[0]]) + Escaped(value[1..])
  }

  function Quoted(value: string): string {
    "'" + Escaped(value) + "'"
  }

  method ShellSingleQuote(value: string) returns (out: string)
    ensures out == Quoted(value)
  {
    out := "'";
    for i := 0 to |value|
      invariant out + Escaped(value[i..]) == "'" + Escaped(value)
    {
      assert value[i..][1..] == value[i + 1..];
      if value[i] == '\'' {
        out := out + "'\\''";
      } else {
        out := out + [value[i]];
      }
    }
    out := out + "'";
  }

  /** Where the shell's reader stands in a script (POSIX.1-2017, Shell Command Language, sections
      2.2.1 to 2.2.3 on quoting and 2.3 on tokens, whose rule 9 is the comment). Unquoted text is
      at the start of a word, in a word, after an operator character (an opening parenthesis,
      `<`, `>` or another one), after `$`, in the descriptor of `>&` or `<&`, or in a comment, a
      `${` expansion or backquotes. `Beyond` is everything that is not followed here:
      here-documents, arithmetic, expansions inside double quotes, quotes after `$`, in braces or
      in backquotes, `>&` before a word, a parenthesis right after a word, and `#` right after
      an operator character, which opens a comment or not as the constructs around it say. An escape remembers where it stood, since
      an escaped newline is as if it were not there. */
  datatype Mode =
    | WordStart | InWord | Paren | Less | Greater | Operator
    | Dollar | Duplicating | Descriptor
    | Comment | Brace | Backquote | BackquoteEscaping
    | Single | Double | DoubleDollar
    | Escaping(back: Mode) | DoubleEscaping(back: Mode)
    | Beyond

  /** Unquoted text where a quoted value may stand as a word or a part of one. */
  predicate IsBare(m: Mode) {
    m.WordStart? || m.InWord? || m.Paren? || m.Less? || m.Greater? || m.Operator?
  }

  /** What a character becomes: a quoting mark, a character that stands for itself, or one that
      the shell may interpret. What is dropped leaves no mark. */
  datatype Mark = Quote | Literal(c: char) | Active(c: char)

  /** The blanks, the newline and the operator characters, at which unquoted text breaks. */
  predicate Breaks(c: char) {
    c in " \t\n&;|<>()"
  }

  function LexBare(m: Mode, c: char): (Mode, seq<Mark>) {
    match c
    case '\'' => (Single, [Quote])
    case '"' => (Double, [Quote])
    case '\\' => (Escaping(m), [])
    case '`' => (Backquote, [Active(c)])
    case '$' => (Dollar, [Active(c)])
    case '<' => (if m.Less? then Beyond else Less, [Active(c)])
    case '>' => (Greater, [Active(c)])
    case '(' => (if m.Paren? || m.InWord? then Beyond else Paren, [Active(c)])
    case '&' => (if m.Less? || m.Greater? then Duplicating else Operator, [Active(c)])
    case '|' => (Operator, [Active(c)])
    case ')' => (Operator, [Active(c)])
    case '#' => if m.WordStart? then (Comment, []) else (if m.InWord? then InWord else Beyond, [Active(c)])
    case _ => (if Breaks(c) then WordStart else InWord, [Active(c)])
  }

  function LexDouble(m: Mode, c: char): (Mode, seq<Mark>) {
    match c
    case '"' => (InWord, [Quote])
    case '\\' => (DoubleEscaping(m), [])
    case '`' => (Beyond, [Active(c)])
    case '$' => (DoubleDollar, [Active(c)])
    case _ => if m.DoubleDollar? && c in "({[" then (Beyond, [Active(c)]) else (Double, [Literal(c)])
  }

  function Lex1(m: Mode, c: char): (Mode, seq<Mark>) {
    match m
    case WordStart => LexBare(m, c)
    case InWord => LexBare(m, c)
    case Paren => LexBare(m, c)
    case Less => LexBare(m, c)
    case Greater => LexBare(m, c)
    case Operator => LexBare(m, c)
    case Duplicating =>
      (if c in " \t" then Duplicating else if c == '\n' then WordStart
       else if '0' <= c <= '9' || c == '-' then Descriptor else Beyond, [Active(c)])
    case Descriptor =>
      if '0' <= c <= '9' || c == '-' then (Descriptor, [Active(c)])
      else if c in " \t\n;|&)" then LexBare(InWord, c)
      else (Beyond, [Active(c)])
    case Dollar =>
      if c == '\'' || c == '"' then (Beyond, [Active(c)])
      else if c == '(' then (Paren, [Active(c)])
      else if c == '{' then (Brace, [Active(c)])
      else if c == '[' then (Beyond, [Active(c)])
      else if c == '\\' then (Escaping(Dollar), [])
      else LexBare(InWord, c)
    case Comment => if c == '\n' then (WordStart, [Active(c)]) else (Comment, [])
    case Brace => (if c == '}' then InWord else if c in "'\"\\`$" then Beyond else Brace, [Active(c)])
    case Backquote =>
      (if c == '`' then InWord else if c == '\\' then BackquoteEscaping else if c in "'\"" then Beyond else Backquote, [Active(c)])
    case BackquoteEscaping => (Backquote, [Active(c)])
    case Single => if c == '\'' then (InWord, [Quote]) else (Single, [Literal(c)])
    case Double => LexDouble(m, c)
    case DoubleDollar => LexDouble(m, c)
    case Escaping(back) => if c == '\n' then (back, []) else (InWord, [Literal(c)])
    case DoubleEscaping(back) =>
      if c == '\n' then (back, [])
      else (Double, if c in "$`\"\\" then [Literal(c)] else [Literal('\\'), Literal(c)])
    case Beyond => (Beyond, [Active(c)])
  }

  /** The mode after a string, and what its characters became. */
  function End(m: Mode, s: string): Mode
    decreases |s|
  {
    if s == "" then m else End(Lex1(m, s[0]).0, s[1..])
  }

  function Marks(m: Mode, s: string): seq<Mark>
    decreases |s|
  {
    if s == "" then [] else Lex1(m, s[0]).1 + Marks(Lex1(m, s[0]).0, s[1..])
  }

  lemma {:induction false} LexConcat(m: Mode, a: string, b: string)
    ensures End(m, a + b) == End(End(m, a), b)
    ensures Marks(m, a + b) == Marks(m, a) + Marks(End(m, a), b)
    decreases |a|
  {
    hide Lex1;
    if a == "" {
      assert a + b == b;
    } else {
      assert (a + b)[1..] == a[1..] + b;
      LexConcat(Lex1(m, a[0]).0, a[1..], b);
    }
  }

  lemma LexOne(m: Mode, c: char)
    ensures End(m, [c]) == Lex1(m, c).0 && Marks(m, [c]) == Lex1(m, c).1
  {
    assert [c][1..] == "";
  }

  /** The characters that stand for themselves. */
  function Literals(ms: seq<Mark>): string {
    if ms == [] then "" else LiteralOf(ms[0]) + Literals(ms[1..])
  }

  function LiteralOf(m: Mark): string {
    if m.Literal? then [m.c] else ""
  }

  lemma {:induction false} LiteralsConcat(a: seq<Mark>, b: seq<Mark>)
    ensures Literals(a + b) == Literals(a) + Literals(b)
  {
    if a == [] {
      assert a + b == b;
    } else {
      hide LiteralOf;
      assert (a + b)[0] == a[0] && (a + b)[1..] == a[1..] + b;
      LiteralsConcat(a[1..], b);
    }
  }

  /** Nothing for the shell to interpret. */
  ghost predicate Quiet(ms: seq<Mark>) {
    forall i | 0 <= i < |ms| :: !ms[i].Active?
  }

  /** Marks that put exactly `value` into a word, opening with a quote and leaving nothing for
      the shell to interpret. */
  ghost predicate Contributes(ms: seq<Mark>, value: string) {
    && ms != [] && ms[0] == Quote
    && Quiet(ms)
    && Literals(ms) == value
  }

  lemma EscapedQuote()
    ensures End(Single, "'\\''") == Single && Marks(Single, "'\\''") == [Quote, Literal('\''), Quote]
  {
    LexConcat(Single, "'", "\\''");
    LexConcat(InWord, "\\", "''");
    LexConcat(Escaping(InWord), "'", "'");
    LexOne(Single, '\'');
    LexOne(InWord, '\\');
    LexOne(Escaping(InWord), '\'');
    LexOne(InWord, '\'');
  }

  /** One character of a value, inside the quotes. */
  lemma EscapedChar(c: char)
    ensures var head := if c == '\'' then "'\\''" else [c];
      var ms := Marks(Single, head);
      End(Single, head) == Single && Quiet(ms) && Literals(ms) == [c]
  {
    if c == '\'' {
      EscapedQuote();
      LiteralsConcat([Quote], [Literal(c), Quote]);
      LiteralsConcat([Literal(c)], [Quote]);
    } else {
      LexOne(Single, c);
    }
  }

  lemma {:induction false} InsideQuotes(value: string)
    ensures End(Single, Escaped(value)) == Single
    ensures Quiet(Marks(Single, Escaped(value))) && Literals(Marks(Single, Escaped(value))) == value
  {
    if value != "" {
      var c, later := value[0], Escaped(value[1..]);
      var head := if c == '\'' then "'\\''" else [c];
      InsideQuotes(value[1..]);
      EscapedChar(c);
      assert Escaped(value) == head + later;
      hide Escaped, End, Marks, Literals;
      LexConcat(Single, head, later);
      LiteralsConcat(Marks(Single, head), Marks(Single, later));
    }
  }

  /** A quoted value that starts unquoted ends unquoted, in a word, and contributes exactly the
      value. */
  lemma QuotingIsNeutral(m: Mode, value: string)
    requires IsBare(m)
    ensures End(m, Quoted(value)) == InWord && Contributes(Marks(m, Quoted(value)), value)
  {
    InsideQuotes(value);
    var body := Escaped(value);
    LexOne(m, '\'');
    LexOne(Single, '\'');
    hide End, Marks, Escaped;
    LexConcat(Single, body, "'");
    LexConcat(m, "'", body + "'");
    assert "'" + (body + "'") == Quoted(value);
    LiteralsConcat([Quote], Marks(Single, body) + [Quote]);
    LiteralsConcat(Marks(Single, body), [Quote]);
  }

  // ----- whole scripts -----

  /** Every known placeholder is reached in unquoted text. This looks at the template only. */
  ghost predicate Unquoted(t: Template, known: set<string>, m: Mode) {
    match t
    case Last(_) => true
    case Hole(before, key, rest) =>
      var m1 := End(m, before);
      if key in known then IsBare(m1) && Unquoted(rest, known, InWord)
      else Unquoted(rest, known, End(m1, "{" + key + "}"))
  }

  ghost predicate Knows(state: State, known: set<string>) {
    forall key: string :: key in known <==> Resolve(key, state).Some?
  }

  /** How many pieces of text the breaks leave; `inside` says whether a script starts inside one. */
  function Words(ms: seq<Mark>, inside: bool): nat {
    if ms == [] then 0
    else if ms[0].Active? && Breaks(ms[0].c) then Words(ms[1..], false)
    else (if inside then 0 else 1) + Words(ms[1..], true)
  }

  /** The characters the shell may interpret. */
  function Actives(ms: seq<Mark>): string {
    if ms == [] then "" else (if ms[0].Active? then [ms[0].c] else "") + Actives(ms[1..])
  }

  /** Inside a word, marks that are not active change neither count. */
  lemma {:induction false} QuietMarks(ms: seq<Mark>, later: seq<Mark>)
    requires Quiet(ms)
    ensures Words(ms + later, true) == Words(later, true)
    ensures Actives(ms + later) == Actives(later)
  {
    if ms == [] {
      assert ms + later == later;
    } else {
      assert (ms + later)[1..] == ms[1..] + later;
      QuietMarks(ms[1..], later);
    }
  }

  lemma QuotedIsOneWordPart(ms: seq<Mark>, value: string, later: seq<Mark>, inside: bool)
    requires Contributes(ms, value)
    ensures Words(ms + later, inside) == (if inside then 0 else 1) + Words(later, true)
    ensures Actives(ms + later) == Actives(later)
  {
    assert (ms + later)[1..] == ms[1..] + later;
    QuietMarks(ms[1..], later);
  }

  /** Two scripts with the same characters to interpret and the same pieces between breaks. */
  ghost predicate SameScript(x: seq<Mark>, y: seq<Mark>) {
    Actives(x) == Actives(y) && forall inside: bool :: Words(x, inside) == Words(y, inside)
  }

  lemma SameScriptReflexive(x: seq<Mark>)
    ensures SameScript(x, x)
  {
  }

  lemma {:induction false} SameFront(front: seq<Mark>, x: seq<Mark>, y: seq<Mark>)
    requires SameScript(x, y)
    ensures SameScript(front + x, front + y)
  {
    if front == [] {
      assert front + x == x && front + y == y;
    } else {
      assert (front + x)[1..] == front[1..] + x && (front + y)[1..] == front[1..] + y;
      SameFront(front[1..], x, y);
    }
  }

  /** Whatever the values are, a script template with unquoted placeholders gives a script with
      the same pieces and the same characters for the shell to interpret. */
  lemma {:induction false} ValuesNeverChangeTheScript(
      t: Template, known: set<string>, m: Mode, a: State, b: State)
    requires Unquoted(t, known, m) && Knows(a, known) && Knows(b, known)
    ensures End(m, Fill(t, a, Quoted)) == End(m, Fill(t, b, Quoted))
    ensures SameScript(Marks(m, Fill(t, a, Quoted)), Marks(m, Fill(t, b, Quoted)))
    decreases t
  {
    hide End, Marks, Filled, SameScript, Quoted;
    match t
    case Last(text) => SameScriptReflexive(Marks(m, text));
    case Hole(before, key, rest) =>
      var m1 := End(m, before);
      var fa, fb := Filled(key, a, Quoted), Filled(key, b, Quoted);
      var ra, rb := Fill(rest, a, Quoted), Fill(rest, b, Quoted);
      assert Fill(t, a, Quoted) == before + (fa + ra) && Fill(t, b, Quoted) == before + (fb + rb);
      var next := End(m1, fa);
      HoleEnds(key, known, m1, a);
      HoleEnds(key, known, m1, b);
      ValuesNeverChangeTheScript(rest, known, next, a, b);
      hide Unquoted, Fill, Knows;
      LexConcat(m1, fa, ra);
      LexConcat(m1, fb, rb);
      HoleKeepsScript(key, known, m1, a, b, Marks(next, ra), Marks(next, rb));
      LexConcat(m, before, fa + ra);
      LexConcat(m, before, fb + rb);
      SameFront(Marks(m, before), Marks(m1, fa + ra), Marks(m1, fb + rb));
  }

  lemma HoleEnds(key: string, known: set<string>, m: Mode, state: State)
    requires Knows(state, known) && (key in known ==> IsBare(m))
    ensures End(m, Filled(key, state, Quoted)) == if key in known then InWord else End(m, "{" + key + "}")
  {
    if key in known {
      QuotingIsNeutral(m, Resolve(key, state).value);
    }
  }

  lemma HoleKeepsScript(key: string, known: set<string>, m: Mode, a: State, b: State,
                        la: seq<Mark>, lb: seq<Mark>)
    requires Knows(a, known) && Knows(b, known) && (key in known ==> IsBare(m))
    requires SameScript(la, lb)
    ensures SameScript(Marks(m, Filled(key, a, Quoted)) + la, Marks(m, Filled(key, b, Quoted)) + lb)
  {
    var fa, fb := Marks(m, Filled(key, a, Quoted)), Marks(m, Filled(key, b, Quoted));
    if key in known {
      var va, vb := Resolve(key, a).value, Resolve(key, b).value;
      QuotingIsNeutral(m, va);
      QuotingIsNeutral(m, vb);
      hide Marks, Quoted, Contributes;
      forall inside: bool ensures Words(fa + la, inside) == Words(fb + lb, inside) {
        QuotedIsOneWordPart(fa, va, la, inside);
        QuotedIsOneWordPart(fb, vb, lb, inside);
      }
      QuotedIsOneWordPart(fa, va, la, true);
      QuotedIsOneWordPart(fb, vb, lb, true);
    } else {
      SameFront(fa, la, lb);
    }
  }

  // ----- placeholders that are not reached unquoted -----

  /** The state that gives every known placeholder the same value. */
  function Uniform(known: set<string>, value: string): State {
    State(value, [], None, map key | key in known :: value)
  }

  lemma {:induction false} ActivesConcat(a: seq<Mark>, b: seq<Mark>)
    ensures Actives(a + b) == Actives(a) + Actives(b)
  {
    if a == [] {
      assert a + b == b;
    } else {
      assert (a + b)[0] == a[0] && (a + b)[1..] == a[1..] + b;
      ActivesConcat(a[1..], b);
    }
  }

  const PAIR: string := ['\n', '$']

  /** A value of `k` newlines and `k` dollar signs. */
  function Probe(k: nat): string {
    if k == 0 then "" else PAIR + Probe(k - 1)
  }

  lemma {:induction false} ProbeHasNoQuotes(k: nat)
    ensures Without(Probe(k), '\'')
  {
    if k > 0 {
      ProbeHasNoQuotes(k - 1);
    }
  }

  lemma {:induction false} NothingToEscape(s: string)
    requires Without(s, '\'')
    ensures Escaped(s) == s
  {
    if s != "" {
      NothingToEscape(s[1..]);
    }
  }

  /** Modes in which every newline or every dollar sign is open to interpretation. */
  predicate Loud(m: Mode) {
    IsBare(m) || m.Dollar? || m.Comment? || m.Backquote? || m.Double? || m.DoubleDollar? || m.Beyond?
  }

  lemma LoudChars(m: Mode)
    requires Loud(m)
    ensures Loud(Lex1(m, '\n').0) && !Lex1(m, '\n').0.Comment?
    ensures !m.Comment? ==> Loud(Lex1(m, '$').0) && Lex1(m, '$').1 == [Active('$')]
  {
  }

  lemma LoudPair(m: Mode)
    requires Loud(m)
    ensures Loud(End(m, PAIR)) && |Actives(Marks(m, PAIR))| >= 1
  {
    var m1 := Lex1(m, '\n').0;
    LoudChars(m);
    LoudChars(m1);
    hide End, Marks, Lex1, Loud;
    LexOne(m, '\n');
    LexOne(m1, '$');
    LexConcat(m, ['\n'], ['$']);
    assert ['\n'] + ['$'] == PAIR;
    ActivesConcat(Lex1(m, '\n').1, [Active('$')]);
  }

  lemma {:induction false} ProbeIsHeard(m: Mode, k: nat)
    requires Loud(m)
    ensures |Actives(Marks(m, Probe(k)))| >= k
    decreases k
  {
    hide Lex1, Loud;
    if k > 0 {
      LoudPair(m);
      var next := End(m, PAIR);
      ProbeIsHeard(next, k - 1);
      hide End, Marks, Actives, Loud;
      LexConcat(m, PAIR, Probe(k - 1));
      ActivesConcat(Marks(m, PAIR), Marks(next, Probe(k - 1)));
    }
  }

  /** A quoted probe that is not reached unquoted shows at least `k` characters to the shell. */
  lemma QuotedProbeIsHeard(m: Mode, k: nat)
    requires !IsBare(m)
    ensures |Actives(Marks(m, Quoted(Probe(k))))| >= k
  {
    var m1, body := Lex1(m, '\'').0, Probe(k);
    LexOne(m, '\'');
    assert Loud(m1);
    ProbeHasNoQuotes(k);
    NothingToEscape(body);
    ProbeIsHeard(m1, k);
    hide End, Marks, Actives, Loud;
    assert Quoted(body) == "'" + (body + "'");
    LexConcat(m, "'", body + "'");
    LexConcat(m1, body, "'");
    ActivesConcat(Marks(m, "'"), Marks(m1, body + "'"));
    ActivesConcat(Marks(m1, body), Marks(End(m1, body), "'"));
  }

  lemma UniformKnows(known: set<string>, value: string)
    requires "task" in known
    ensures Knows(Uniform(known, value), known)
    ensures forall key | key in known :: Resolve(key, Uniform(known, value)) == Some(value)
  {
  }

  /** Where some known placeholder is not reached unquoted, the values can show the shell any
      number of characters. */
  lemma {:induction false} ProbesAreHeard(t: Template, known: set<string>, m: Mode, k: nat)
    requires "task" in known && !Unquoted(t, known, m)
    ensures |Actives(Marks(m, Fill(t, Uniform(known, Probe(k)), Quoted)))| >= k
    decreases t
  {
    var state := Uniform(known, Probe(k));
    UniformKnows(known, Probe(k));
    hide End, Marks, Actives, Quoted, Uniform, Knows, Resolve;
    match t
    case Last(_) =>
    case Hole(before, key, rest) =>
      var m1, filled, later := End(m, before), Filled(key, state, Quoted), Fill(rest, state, Quoted);
      var next := End(m1, filled);
      FrontsAdd(before, filled, later, m);
      if key in known && !IsBare(m1) {
        QuotedProbeIsHeard(m1, k);
      } else {
        HoleEnds(key, known, m1, state);
        ProbesAreHeard(rest, known, next, k);
      }
  }

  lemma FrontsAdd(before: string, filled: string, later: string, m: Mode)
    ensures var m1 := End(m, before);
      |Actives(Marks(m, before + filled + later))|
      == |Actives(Marks(m, before))| + |Actives(Marks(m1, filled))| + |Actives(Marks(End(m1, filled), later))|
  {
    hide End, Marks, Actives;
    var m1 := End(m, before);
    var next := End(m1, filled);
    LexConcat(m, before, filled);
    LexConcat(m, before + filled, later);
    ActivesConcat(Marks(m, before), Marks(m1, filled));
    ActivesConcat(Marks(m, before + filled), Marks(next, later));
  }

  /** The marks of a whole script. */
  function Script(t: Template, state: State): seq<Mark> {
    Marks(WordStart, Fill(t, state, Quoted))
  }

  /** The values can never change a script exactly when every known placeholder of its template
      is reached in unquoted text. */
  lemma NeutralIffUnquoted(t: Template, known: set<string>)
    requires "task" in known
    ensures Unquoted(t, known, WordStart) <==>
      forall a, b | Knows(a, known) && Knows(b, known) :: SameScript(Script(t, a), Script(t, b))
  {
    if Unquoted(t, known, WordStart) {
      forall a, b | Knows(a, known) && Knows(b, known) ensures SameScript(Script(t, a), Script(t, b)) {
        ValuesNeverChangeTheScript(t, known, WordStart, a, b);
      }
    } else {
      var a := Uniform(known, "");
      var k := |Actives(Script(t, a))| + 1;
      var b := Uniform(known, Probe(k));
      UniformKnows(known, "");
      UniformKnows(known, Probe(k));
      ProbesAreHeard(t, known, WordStart, k);
      assert !SameScript(Script(t, a), Script(t, b));
    }
  }

  /** A comment drops everything up to the newline. */
  lemma {:induction false} CommentDrops(s: string)
    requires Without(s, '\n')
    ensures End(Comment, s) == Comment && Marks(Comment, s) == []
  {
    if s != "" {
      CommentDrops(s[1..]);
    }
  }

  predicate Plain(c: char) {
    'a' <= c <= 'z' || c == ' '
  }

  /** Plain unquoted characters are all shown to the shell. */
  lemma {:induction false} PlainShows(m: Mode, s: string)
    requires IsBare(m) && forall i | 0 <= i < |s| :: Plain(s[i])
    ensures IsBare(End(m, s)) && Actives(Marks(m, s)) == s
    decreases s
  {
    if s != "" {
      var next := Lex1(m, s[0]).0;
      assert IsBare(next) && Lex1(m, s[0]).1 == [Active(s[0])];
      PlainShows(next, s[1..]);
      assert Marks(m, s)[1..] == Marks(next, s[1..]);
    }
  }

  lemma HashOpensComment(dropped: string)
    requires Without(dropped, '\n')
    ensures End(WordStart, ['#'] + dropped) == Comment && Marks(WordStart, ['#'] + dropped) == []
  {
    CommentDrops(dropped);
    LexOne(WordStart, '#');
    hide End, Marks;
    LexConcat(WordStart, ['#'], dropped);
  }

  /** After a comment that ends, a plain line is shown to the shell whole. */
  lemma LineAfterComment(comment: string, line: string, later: string)
    requires End(WordStart, comment) == Comment && Marks(WordStart, comment) == []
    requires forall i | 0 <= i < |line| :: Plain(line[i])
    ensures ['\n'] + line <= Actives(Marks(WordStart, comment + ['\n'] + line + later))
  {
    LexOne(Comment, '\n');
    PlainShows(WordStart, line);
    assert [Active('\n')][1..] == [];
    assert Actives([Active('\n')]) == ['\n'];
    hide End, Marks, Plain, Actives;
    LexConcat(WordStart, comment, ['\n']);
    LexConcat(WordStart, comment + ['\n'], line);
    LexConcat(WordStart, comment + ['\n'] + line, later);
    assert [] + [Active('\n')] == [Active('\n')];
    ActivesConcat([Active('\n')], Marks(WordStart, line));
    ActivesConcat([Active('\n')] + Marks(WordStart, line), Marks(End(WordStart, line), later));
  }

  /** The template `# {task}` and whatever follows it. */
  function CommentTemplate(after: string): Template {
    Hole(['#', ' '], "task", Last(after))
  }

  lemma CommentScript(value: string, after: string)
    requires Without(value, '\'')
    ensures Fill(CommentTemplate(after), New(value), Quoted) == ['#'] + ([' ', '\''] + value) + ['\''] + after
  {
    NothingToEscape(value);
    hide Escaped;
    assert Quoted(value) == ['\''] + value + ['\''];
  }

  /** A placeholder in a comment is not reached unquoted, and a value of one line is dropped with
      the comment. */
  lemma CommentIsNotUnquoted(value: string, after: string)
    requires Without(value, '\n') && Without(value, '\'')
    ensures !Unquoted(CommentTemplate(after), {"task"}, WordStart)
    ensures Script(CommentTemplate(after), New(value)) == Marks(Comment, after)
  {
    HashOpensComment([' ']);
    assert ['#'] + [' '] == ['#', ' '];
    CommentScript(value, after);
    var dropped := [' ', '\''] + value + ['\''];
    HashOpensComment(dropped);
    hide End, Marks, Fill, Without;
    LexConcat(WordStart, ['#'] + dropped, after);
    assert ['#'] + ([' ', '\''] + value) + ['\''] == ['#'] + dropped;
  }

  lemma Regroup(a: string, b: string, c: string, d: string, e: string, f: string, g: string)
    ensures a + (b + (c + d + e)) + f + g == a + (b + c) + d + e + (f + g)
  {
    assert b + (c + d + e) == b + c + d + e;
    var x := b + c;
    assert a + (x + d + e) == a + x + d + e;
    var y := a + x + d + e;
    assert y + f + g == y + (f + g);
  }

  /** But a newline in the value ends the comment, and the shell is shown the next line. */
  lemma CommentLetsLinesOut(value: string, line: string, after: string)
    requires Without(value, '\n') && Without(value, '\'')
    requires Without(line, '\'') && forall i | 0 <= i < |line| :: Plain(line[i])
    ensures ['\n'] + line <= Actives(Script(CommentTemplate(after), New(value + ['\n'] + line)))
  {
    var longer := value + ['\n'] + line;
    CommentScript(longer, after);
    var dropped := [' ', '\''] + value;
    HashOpensComment(dropped);
    hide End, Marks, Fill, Actives, Without, Plain;
    LineAfterComment(['#'] + dropped, line, ['\''] + after);
    Regroup(['#'], [' ', '\''], value, ['\n'], line, ['\''], after);
  }

  lemma {:induction false} BeyondStays(s: string)
    ensures End(Beyond, s) == Beyond
  {
    if s != "" {
      BeyondStays(s[1..]);
    }
  }

  /** The parenthesis that closes a command substitution leaves the shell in a word, where `#` is an
      ordinary character; the one that closes a subshell does not. No placeholder after `)#` is
      taken to be unquoted: neither in `$()#{task}` nor behind a quote that follows, as in `$()#'`
      and `{task}` on the next line. */
  lemma HashAfterParenthesis(before: string, later: string, rest: Template)
    requires IsBare(End(WordStart, before))
    ensures !Unquoted(Hole(before + [')', '#'] + later, "task", rest), {"task"}, WordStart)
  {
    var m := End(WordStart, before);
    LexOne(m, ')');
    LexOne(Operator, '#');
    BeyondStays(later);
    hide End, Marks;
    LexConcat(m, [')'], ['#']);
    assert [')'] + ['#'] == [')', '#'];
    LexConcat(WordStart, before, [')', '#']);
    LexConcat(WordStart, before + [')', '#'], later);
  }

  /** The two templates of that kind, from their first character on. */
  lemma HashAfterSubstitution(later: string, rest: Template)
    ensures !Unquoted(Hole(['$', '('] + [')', '#'] + later, "task", rest), {"task"}, WordStart)
  {
    LexOne(WordStart, '$');
    LexOne(Dollar, '(');
    LexConcat(WordStart, ['$'], ['(']);
    assert ['$'] + ['('] == ['$', '('];
    HashAfterParenthesis(['$', '('], later, rest);
  }
}
