/**
 * asm/src/preprocessor.rs: the assembler's macro preprocessor.  It walks
 * the lexer's raw tokens once, records `%define` macros (constants, and
 * functions overloaded by parameter count) and replaces every identifier
 * that names a macro by its full expansion.
 *
 * The `&mut &[RawToken]` cursor the parsing functions advance is a
 * `Cursor.Cursor<RawToken>` object; each such function is a method proved
 * against a pure function of the unread tokens, which returns the parsed
 * value together with the tokens it leaves unread.  A syntax error keeps
 * the token it points at; a `panic!` is the `Panicked` failure.
 */
module Preprocessor {
  import opened Wrappers
  import opened Token
  import Cursor

  /** `RECURSION_LIMIT`: the deepest the working stack of `expand_macro` may grow. */
  const RECURSION_LIMIT: nat := 10

  type Tokens = seq<RawToken>

  // ---------------------------------------------------------------------
  // Errors

  /** The reasons the preprocessor reports (asm/src/error.rs builds the messages). */
  datatype ErrorKind = ExpectedMacroName | UnexpectedToken | ExpectedDelimiter | RecursionLimit

  /** A `SyntaxError`: its reason and the token whose location it reports. */
  datatype SyntaxError = SyntaxError(kind: ErrorKind, at: RawToken)

  /** Why an operation produced no value: a syntax error, or a `panic!`. */
  datatype Failure = Syntax(error: SyntaxError) | Panicked

  type Res<T> = Result<T, Failure>

  function Fail<T>(kind: ErrorKind, at: RawToken): Res<T>
  {
    Err(Syntax(SyntaxError(kind, at)))
  }

  /** The value of a parse, without the unread tokens. */
  function Value<T>(r: Res<(T, Tokens)>): Res<T>
  {
    match r
    case Ok((v, _)) => Ok(v)
    case Err(f) => Err(f)
  }

  /** `r` is what is left of `s` after some tokens were read from its front. */
  predicate SuffixOf(r: Tokens, s: Tokens)
  {
    |r| <= |s| && r == s[|s| - |r|..]
  }

  lemma SuffixOfTail(r: Tokens, s: Tokens)
    requires SuffixOf(r, s) && r != []
    ensures SuffixOf(r[1..], s)
  {
  }

  lemma SuffixOfTrans(a: Tokens, b: Tokens, c: Tokens)
    requires SuffixOf(a, b) && SuffixOf(b, c)
    ensures SuffixOf(a, c)
  {
  }

  // ---------------------------------------------------------------------
  // Macros

  /** `MacroToken`: a definition token, marked when it names a parameter. */
  datatype MacroToken = Parameter(tok: RawToken) | Token(tok: RawToken)

  /** The raw tokens of a definition. */
  function TokensOf(def: seq<MacroToken>): (r: Tokens)
    ensures |r| == |def|
    ensures forall i | 0 <= i < |def| :: r[i] == def[i].tok
  {
    seq(|def|, i requires 0 <= i < |def| => def[i].tok)
  }

  /** `Macro`: a name, the parameter names of a function macro, and the definition. */
  datatype Macro = Macro(name: string, params: Option<seq<string>>, def: seq<MacroToken>)

  /** `Macro::new_constant`: no parameters, and no definition token is a parameter. */
  function NewConstant(name: string, def: Tokens): (m: Macro)
    ensures m.name == name && m.params == None
    ensures TokensOf(m.def) == def
    ensures forall i | 0 <= i < |m.def| :: m.def[i].Token?
  {
    Macro(name, None, seq(|def|, i requires 0 <= i < |def| => Token(def[i])))
  }

  /** `Macro::new_function`: a definition token is a parameter exactly when its text is one of `params`. */
  function NewFunction(name: string, params: seq<string>, def: Tokens): (m: Macro)
    ensures m.name == name && m.params == Some(params)
    ensures TokensOf(m.def) == def
    ensures forall i | 0 <= i < |m.def| :: m.def[i].Parameter? <==> def[i].text in params
  {
    Macro(name, Some(params), Classify(params, def))
  }

  function Classify(params: seq<string>, def: Tokens): (r: seq<MacroToken>)
    ensures |r| == |def|
  {
    seq(|def|, i requires 0 <= i < |def| => if def[i].text in params then Parameter(def[i]) else Token(def[i]))
  }

  /** One overload of a function macro: its parameter names and its definition. */
  datatype Overload = Overload(params: seq<string>, def: seq<MacroToken>)

  /** The overloads are ordered by strictly increasing parameter count. */
  ghost predicate Ascending(os: seq<Overload>)
  {
    forall i, j | 0 <= i < j < |os| :: |os[i].params| < |os[j].params|
  }

  /** The index of the first overload with `n` parameters. */
  function FirstWithArity(os: seq<Overload>, n: nat): (r: Option<nat>)
    ensures r.Some? ==> r.value < |os| && |os[r.value].params| == n
    ensures r.Some? ==> forall i | 0 <= i < r.value :: |os[i].params| != n
    ensures r.None? <==> forall i | 0 <= i < |os| :: |os[i].params| != n
  {
    if os == [] then None
    else if |os[0].params| == n then Some(0)
    else match FirstWithArity(os[1..], n)
      case None => assert forall i | 1 <= i < |os| :: os[i] == os[1..][i - 1]; None
      case Some(k) => assert forall i | 1 <= i < k + 1 :: os[i] == os[1..][i - 1]; Some(k + 1)
  }

  /** In ascending overloads, the overload at `i` is the one found for its own parameter count. */
  lemma FoundAt(os: seq<Overload>, i: nat)
    requires Ascending(os) && i < |os|
    ensures FirstWithArity(os, |os[i].params|) == Some(i)
  {
  }

  /** The result of `binary_search_by_key` on the parameter counts. */
  datatype Search = Found(index: nat) | Insert(index: nat)

  /**
   * `binary_search_by_key(&n, |(a, _)| a.len())` on ascending overloads: the
   * index of the overload with `n` parameters, or the index at which one
   * would keep the order.
   */
  function SearchArity(os: seq<Overload>, n: nat): (r: Search)
    requires Ascending(os)
    ensures r.Found? ==> r.index < |os| && |os[r.index].params| == n
    ensures r.Insert? ==> r.index <= |os|
    ensures r.Insert? ==> forall i | 0 <= i < r.index :: |os[i].params| < n
    ensures r.Insert? ==> forall i | r.index <= i < |os| :: n < |os[i].params|
  {
    if os == [] then Insert(0)
    else if |os[0].params| == n then Found(0)
    else if n < |os[0].params| then Insert(0)
    else match SearchArity(os[1..], n)
      case Found(k) => Found(k + 1)
      case Insert(k) =>
        assert forall i | 1 <= i < |os| :: os[i] == os[1..][i - 1];
        Insert(k + 1)
  }

  /** `MacroSet`: every definition of one macro name. */
  datatype MacroSet = MacroSet(name: string, constant: Option<seq<MacroToken>>, overloads: seq<Overload>)
  {
    ghost predicate Valid()
    {
      Ascending(overloads)
    }

    /** `has_constant` */
    predicate HasConstant()
    {
      constant.Some?
    }

    /** `has_overloads` */
    predicate HasOverloads()
    {
      overloads != []
    }

    /** `get_constant` */
    function GetConstant(): Option<seq<MacroToken>>
    {
      constant
    }

    /** `get_overload(args)`: the overload with exactly `args` parameters, if there is one. */
    function GetOverload(args: nat): (r: Option<Overload>)
      ensures r.Some? ==> |r.value.params| == args && r.value in overloads
      ensures r.None? <==> forall i | 0 <= i < |overloads| :: |overloads[i].params| != args
    {
      OverloadOf(overloads, args)
    }

    /**
     * `add(params, def)`: without parameters the definition becomes the
     * constant; with parameters it replaces the overload with as many
     * parameters, or is inserted where it keeps the overloads ordered.
     */
    function Add(params: Option<seq<string>>, def: seq<MacroToken>): (r: MacroSet)
      requires Valid()
      ensures r.Valid() && r.name == name
      ensures params.None? ==> r.constant == Some(def) && r.overloads == overloads
      ensures params.Some? ==> r.constant == constant
      ensures params.Some? ==> r.GetOverload(|params.value|) == Some(Overload(params.value, def))
      ensures params.Some? ==> forall n: nat | n != |params.value| :: r.GetOverload(n) == GetOverload(n)
      ensures params.Some? ==> |r.overloads| == |overloads| + (if GetOverload(|params.value|).Some? then 0 else 1)
    {
      match params
      case None => this.(constant := Some(def))
      case Some(p) =>
        var o := Overload(p, def);
        match SearchArity(overloads, |p|)
        case Found(i) =>
          var r := this.(overloads := overloads[i := o]);
          ReplaceKeepsOthers(overloads, i, o);
          r
        case Insert(i) =>
          var r := this.(overloads := overloads[..i] + [o] + overloads[i..]);
          InsertKeepsOthers(overloads, i, o);
          r
    }
  }

  /** The overload with `n` parameters, if there is one. */
  function OverloadOf(os: seq<Overload>, n: nat): (r: Option<Overload>)
    ensures r.Some? ==> |r.value.params| == n && r.value in os
    ensures r.None? <==> forall i | 0 <= i < |os| :: |os[i].params| != n
  {
    match FirstWithArity(os, n)
    case Some(i) => Some(os[i])
    case None => None
  }

  lemma ReplaceKeepsOthers(os: seq<Overload>, i: nat, o: Overload)
    requires Ascending(os) && i < |os| && |os[i].params| == |o.params|
    ensures Ascending(os[i := o])
    ensures OverloadOf(os[i := o], |o.params|) == Some(o)
    ensures forall n: nat | n != |o.params| :: OverloadOf(os[i := o], n) == OverloadOf(os, n)
  {
    var r := os[i := o];
    FoundAt(r, i);
    forall n: nat | n != |o.params|
      ensures OverloadOf(r, n) == OverloadOf(os, n)
    {
      var a := FirstWithArity(os, n);
      if a.Some? {
        FoundAt(os, a.value);
        FoundAt(r, a.value);
      }
    }
  }

  lemma InsertAscending(os: seq<Overload>, i: nat, o: Overload)
    requires Ascending(os) && i <= |os|
    requires forall j | 0 <= j < i :: |os[j].params| < |o.params|
    requires forall j | i <= j < |os| :: |o.params| < |os[j].params|
    ensures Ascending(os[..i] + [o] + os[i..])
    ensures OverloadOf(os[..i] + [o] + os[i..], |o.params|) == Some(o)
  {
    var r := os[..i] + [o] + os[i..];
    assert forall j | 0 <= j < i :: r[j] == os[j];
    assert forall j | i < j < |r| :: r[j] == os[j - 1];
    FoundAt(r, i);
  }

  lemma InsertKeepsArity(os: seq<Overload>, i: nat, o: Overload, n: nat)
    requires Ascending(os) && i <= |os| && n != |o.params|
    requires Ascending(os[..i] + [o] + os[i..])
    ensures OverloadOf(os[..i] + [o] + os[i..], n) == OverloadOf(os, n)
  {
    var r := os[..i] + [o] + os[i..];
    var a := FirstWithArity(os, n);
    if a.Some? {
      var k := a.value;
      var kr := if k < i then k else k + 1;
      assert r[kr] == os[k];
      FoundAt(r, kr);
    } else {
      assert forall j | 0 <= j < |r| && j != i :: r[j] == (if j < i then os[j] else os[j - 1]);
    }
  }

  lemma InsertKeepsOthers(os: seq<Overload>, i: nat, o: Overload)
    requires Ascending(os) && i <= |os|
    requires forall j | 0 <= j < i :: |os[j].params| < |o.params|
    requires forall j | i <= j < |os| :: |o.params| < |os[j].params|
    ensures Ascending(os[..i] + [o] + os[i..])
    ensures OverloadOf(os[..i] + [o] + os[i..], |o.params|) == Some(o)
    ensures forall n: nat | n != |o.params| :: OverloadOf(os[..i] + [o] + os[i..], n) == OverloadOf(os, n)
  {
    InsertAscending(os, i, o);
    forall n: nat | n != |o.params|
      ensures OverloadOf(os[..i] + [o] + os[i..], n) == OverloadOf(os, n)
    {
      InsertKeepsArity(os, i, o, n);
    }
  }

  /** `MacroSet::new(name)`: no constant and no overloads. */
  function NewSet(name: string): (s: MacroSet)
    ensures s.Valid() && s.name == name && !s.HasConstant() && !s.HasOverloads()
  {
    MacroSet(name, None, [])
  }

  /** Every set in the table is filed under its own name and has ordered overloads. */
  ghost predicate TableValid(defs: map<string, MacroSet>)
  {
    forall k | k in defs :: defs[k].name == k && defs[k].Valid()
  }

  /**
   * `add_macro(def)` on the table's map: the set for the macro's name,
   * created empty when missing, receives the definition; every other name
   * keeps its set.
   */
  function WithMacro(defs: map<string, MacroSet>, m: Macro): (r: map<string, MacroSet>)
    requires TableValid(defs)
    ensures TableValid(r)
    ensures r.Keys == defs.Keys + {m.name}
    ensures forall k | k in defs && k != m.name :: r[k] == defs[k]
    ensures m.params.None? ==> r[m.name].constant == Some(m.def)
    ensures m.params.Some? ==> r[m.name].GetOverload(|m.params.value|) == Some(Overload(m.params.value, m.def))
  {
    var old_set := if m.name in defs then defs[m.name] else NewSet(m.name);
    defs[m.name := old_set.Add(m.params, m.def)]
  }

  /** `MacroTable`: the macro sets by name. */
  class MacroTable {
    var sets: map<string, MacroSet>

    ghost predicate Valid()
      reads this
    {
      TableValid(sets)
    }

    /** `MacroTable::new()` */
    constructor ()
      ensures Valid() && sets == map[]
    {
      sets := map[];
    }

    /** `get(name)` */
    function Get(name: string): (r: Option<MacroSet>)
      reads this
      ensures r.Some? <==> name in sets
      ensures r.Some? ==> r.value == sets[name]
    {
      if name in sets then Some(sets[name]) else None
    }

    /** `has_name(name)` */
    predicate HasName(name: string)
      reads this
    {
      name in sets
    }

    /** `add_macro(def)` */
    method AddMacro(m: Macro)
      requires Valid()
      modifies this
      ensures Valid() && sets == WithMacro(old(sets), m)
    {
      var entry := if m.name in sets then sets[m.name] else NewSet(m.name);
      sets := sets[m.name := entry.Add(m.params, m.def)];
    }
  }

  // ---------------------------------------------------------------------
  // Token predicates and the small cursor helpers

  /** `is_eol`: a comment or a newline ends a line. */
  predicate IsEol(t: RawToken)
  {
    t.IsComment() || t.IsNewline()
  }

  /** `is_not_eol` */
  predicate IsNotEol(t: RawToken)
  {
    !(t.IsComment() || t.IsNewline())
  }

  predicate IsSpace(t: RawToken)
  {
    t.IsWhitespace()
  }

  predicate IsCommentToken(t: RawToken)
  {
    t.IsComment()
  }

  predicate IsNewlineToken(t: RawToken)
  {
    t.IsNewline()
  }

  function First(s: Tokens): Option<RawToken>
  {
    if s == [] then None else Some(s[0])
  }

  /** What `skip_whitespace` leaves: the tokens after the leading whitespace. */
  function SkipWs(s: Tokens): (r: Tokens)
    ensures SuffixOf(r, s)
    ensures forall i | 0 <= i < |s| - |r| :: s[i].IsWhitespace()
    ensures r != [] ==> !r[0].IsWhitespace()
  {
    s[Cursor.PrefixWhile(s, IsSpace)..]
  }

  /**
   * What `skip_eol` leaves: an optional comment, then an optional newline,
   * are read.
   */
  function SkipEol(s: Tokens): (r: Tokens)
    ensures SuffixOf(r, s) && |s| - |r| <= 2
    ensures forall i | 0 <= i < |s| - |r| :: IsEol(s[i])
    ensures |s| - |r| == 2 ==> s[0].IsComment() && s[1].IsNewline()
    ensures s != [] && IsEol(s[0]) ==> |r| < |s|
    ensures s != [] && !IsEol(s[0]) ==> r == s
  {
    if s != [] && s[0].IsComment() then
      if |s| > 1 && s[1].IsNewline() then s[2..] else s[1..]
    else if s != [] && s[0].IsNewline() then s[1..]
    else s
  }

  /**
   * `skip_whitespace`: reads the leading whitespace and returns the last
   * whitespace token read, or the first token when none was.
   */
  method SkipWhitespace(c: Cursor.Cursor<RawToken>) returns (prev: Option<RawToken>)
    modifies c
    ensures c.rest == SkipWs(old(c.rest))
    ensures prev == if |c.rest| == |old(c.rest)| then First(old(c.rest))
                    else Some(old(c.rest)[|old(c.rest)| - |c.rest| - 1])
  {
    ghost var s := c.rest;
    prev := First(c.rest);
    while c.rest != [] && c.rest[0].IsWhitespace()
      invariant SuffixOf(c.rest, s)
      invariant forall i | 0 <= i < |s| - |c.rest| :: s[i].IsWhitespace()
      invariant prev == if |c.rest| == |s| then First(s) else Some(s[|s| - |c.rest| - 1])
      decreases |c.rest|
    {
      prev := Some(c.rest[0]);
      c.rest := c.rest[1..];
    }
    Cursor.PrefixWhileUnique(s, IsSpace, |s| - |c.rest|);
  }

  /** `skip_eol` */
  method SkipEndOfLine(c: Cursor.Cursor<RawToken>)
    modifies c
    ensures c.rest == SkipEol(old(c.rest))
  {
    var comment := c.TakeIf(IsCommentToken);
    if comment.Some? {
      var _ := c.TakeIf(IsNewlineToken);
    } else {
      var _ := c.TakeIf(IsNewlineToken);
    }
  }

  // ---------------------------------------------------------------------
  // Macro call arguments

  /** How a token changes the parenthesis nesting. */
  function Delta(t: RawToken): int
  {
    if t.IsLParen() then 1 else if t.IsRParen() then -1 else 0
  }

  /** The nesting at the end of `s`: its `(` count less its `)` count. */
  function Nesting(s: Tokens): int
  {
    if s == [] then 0 else Delta(s[0]) + Nesting(s[1..])
  }

  /** Starting at nesting `d`, no prefix of `s` closes more parentheses than are open. */
  predicate NeverBelow(s: Tokens, d: int)
  {
    d >= 0 && (s != [] ==> NeverBelow(s[1..], d + Delta(s[0])))
  }

  /** Every `(` of `s` is closed by a later `)`, and no `)` comes without its `(`. */
  predicate Balanced(s: Tokens)
  {
    NeverBelow(s, 0) && Nesting(s) == 0
  }

  /** An argument as `take_macro_arg` returns it holds no comma and no end of line. */
  predicate CleanArg(arg: Tokens)
  {
    forall i | 0 <= i < |arg| :: !arg[i].IsComma() && IsNotEol(arg[i])
  }

  /**
   * The `take_while` scan of `take_macro_arg`, with the stack of open `(`
   * its closure keeps: how many tokens it takes and the stack it ends
   * with.  A `(` is taken and pushed, a `)` is taken and pops when the
   * stack is not empty; any other token is taken unless it is a comma or
   * ends the line.
   */
  function ArgScan(s: Tokens, parens: Tokens): (r: (nat, Tokens))
    ensures r.0 <= |s|
    decreases |s|
  {
    if s == [] then (0, parens)
    else
      var t := s[0];
      if t.IsLParen() || (t.IsRParen() && parens != []) || (!t.IsRParen() && IsNotEol(t) && !t.IsComma()) then
        var next := if t.IsLParen() then parens + [t] else if t.IsRParen() then parens[..|parens| - 1] else parens;
        var (n, p) := ArgScan(s[1..], next);
        (n + 1, p)
      else
        (0, parens)
  }

  /**
   * What the scan takes: nothing that is a comma or ends the line, never
   * a `)` that closes more than is open, and it stops only at a comma, an
   * end of line or a `)` with no `(` left open.  The stack it ends with
   * holds as many `(` as the taken tokens leave open.
   */
  lemma {:induction false} ArgScanShape(s: Tokens, parens: Tokens)
    requires forall i | 0 <= i < |parens| :: parens[i].IsLParen()
    ensures forall i | 0 <= i < |ArgScan(s, parens).1| :: ArgScan(s, parens).1[i].IsLParen()
    ensures |ArgScan(s, parens).1| == |parens| + Nesting(s[..ArgScan(s, parens).0])
    ensures NeverBelow(s[..ArgScan(s, parens).0], |parens|)
    ensures forall i | 0 <= i < ArgScan(s, parens).0 :: !s[i].IsComma() && IsNotEol(s[i])
    ensures ArgScan(s, parens).0 < |s| ==>
      s[ArgScan(s, parens).0].IsComma() || IsEol(s[ArgScan(s, parens).0]) ||
      (s[ArgScan(s, parens).0].IsRParen() && ArgScan(s, parens).1 == [])
    decreases |s|
  {
    if s != [] {
      var t := s[0];
      if t.IsLParen() || (t.IsRParen() && parens != []) || (!t.IsRParen() && IsNotEol(t) && !t.IsComma()) {
        var next := if t.IsLParen() then parens + [t] else if t.IsRParen() then parens[..|parens| - 1] else parens;
        ArgScanShape(s[1..], next);
        var n := ArgScan(s[1..], next).0;
        assert s[..n + 1][1..] == s[1..][..n];
        assert forall i | 1 <= i < n + 1 :: s[i] == s[1..][i - 1];
      }
    }
  }

  /**
   * `take_macro_arg`: after the leading whitespace, the tokens up to the
   * first comma, end of line or unmatched `)`; an error at the innermost
   * `(` left open.
   */
  function TakeMacroArgSpec(s: Tokens): (r: Res<(Tokens, Tokens)>)
    ensures r.Ok? ==> SuffixOf(r.value.1, s)
  {
    var s1 := SkipWs(s);
    var (n, parens) := ArgScan(s1, []);
    if parens != [] then Fail(ExpectedDelimiter, parens[|parens| - 1])
    else Ok((s1[..n], s1[n..]))
  }

  /**
   * `take_macro_arg` reads the leading whitespace and then the argument;
   * the argument is clean, and what follows it is empty or starts with a
   * comma, an end of line or a `)`.  Its error points at a `(`.
   */
  lemma TakeMacroArgShape(s: Tokens)
    ensures var r := TakeMacroArgSpec(s);
      && (r.Ok? ==> r.value.0 + r.value.1 == SkipWs(s))
      && (r.Ok? ==> CleanArg(r.value.0))
      && (r.Ok? ==> r.value.1 == [] || r.value.1[0].IsComma() || IsEol(r.value.1[0]) || r.value.1[0].IsRParen())
      && (r.Err? ==> r.error.Syntax? && r.error.error.kind == ExpectedDelimiter && r.error.error.at.IsLParen())
  {
    var s1 := SkipWs(s);
    ArgScanShape(s1, []);
    var n := ArgScan(s1, []).0;
    assert s1[..n] + s1[n..] == s1;
  }

  /** The argument `take_macro_arg` returns is balanced: it stops at the first unmatched `)`. */
  lemma TakeMacroArgBalanced(s: Tokens)
    requires TakeMacroArgSpec(s).Ok?
    ensures Balanced(TakeMacroArgSpec(s).value.0)
  {
    var s1 := SkipWs(s);
    ArgScanShape(s1, []);
  }

  /** `take_macro_arg`; the `take_while` loop runs the closure's test inline. */
  method TakeMacroArg(c: Cursor.Cursor<RawToken>) returns (r: Res<Tokens>)
    modifies c
    ensures r == Value(TakeMacroArgSpec(old(c.rest)))
    ensures r.Ok? ==> c.rest == TakeMacroArgSpec(old(c.rest)).value.1
  {
    var _ := SkipWhitespace(c);
    ghost var s := c.rest;
    ghost var total := ArgScan(s, []);
    var parens: Tokens := [];
    var index := 0;
    ghost var unread := s;
    while index < |c.rest|
      invariant c.rest == s && index <= |s| && unread == s[index..]
      invariant index + ArgScan(unread, parens).0 == total.0
      invariant ArgScan(unread, parens).1 == total.1
      decreases |s| - index
    {
      var t := c.rest[index];
      assert unread[0] == t;
      var keep: bool;
      if t.IsLParen() {
        parens := parens + [t];
        keep := IsNotEol(t) && !t.IsComma();
      } else if t.IsRParen() {
        if parens == [] {
          keep := false;
        } else {
          parens := parens[..|parens| - 1];
          keep := true;
        }
      } else {
        keep := IsNotEol(t) && !t.IsComma();
      }
      if !keep {
        break;
      }
      index := index + 1;
      unread := unread[1..];
    }
    var arg := c.rest[..index];
    c.rest := c.rest[index..];
    if parens != [] {
      return Fail(ExpectedDelimiter, parens[|parens| - 1]);
    }
    return Ok(arg);
  }

  /**
   * `collect_macro_args`, read after the call's `(`: arguments separated by
   * commas up to the closing `)`.  At the end of the input, where the
   * source loops for ever, this is the error a line ending there gets.
   */
  function CollectArgs(lparen: RawToken, s: Tokens, args: seq<Tokens>): (r: Res<(seq<Tokens>, Tokens)>)
    ensures r.Ok? ==> SuffixOf(r.value.1, s) && |r.value.1| < |s|
    decreases |s|
  {
    var a := TakeMacroArgSpec(s);
    if a.Err? then Err(a.error)
    else
      var (arg, s1) := a.value;
      if s1 == [] then Fail(ExpectedDelimiter, lparen)
      else
        SuffixOfTail(s1, s);
        if s1[0].IsComma() then
          var r := CollectArgs(lparen, s1[1..], args + [arg]);
          if r.Ok? then SuffixOfTrans(r.value.1, s1[1..], s); r else r
        else if s1[0].IsRParen() then Ok((args + [arg], s1[1..]))
        else Fail(ExpectedDelimiter, lparen)
  }

  /** The arguments collected after `args` extend it by at least one. */
  lemma {:induction false} CollectArgsExtends(lparen: RawToken, s: Tokens, args: seq<Tokens>)
    requires CollectArgs(lparen, s, args).Ok?
    ensures |CollectArgs(lparen, s, args).value.0| > |args|
    ensures forall k | 0 <= k < |args| :: CollectArgs(lparen, s, args).value.0[k] == args[k]
    ensures CollectArgs(lparen, s, args).value.0[|args|] == TakeMacroArgSpec(s).value.0
    decreases |s|
  {
    var a := TakeMacroArgSpec(s);
    var (arg, s1) := a.value;
    if s1[0].IsComma() {
      CollectArgsExtends(lparen, s1[1..], args + [arg]);
    }
  }

  /** Clean arguments stay clean: every argument collected is clean. */
  lemma {:induction false} CollectArgsClean(lparen: RawToken, s: Tokens, args: seq<Tokens>)
    requires CollectArgs(lparen, s, args).Ok?
    requires forall k | 0 <= k < |args| :: CleanArg(args[k])
    ensures forall k | 0 <= k < |CollectArgs(lparen, s, args).value.0| :: CleanArg(CollectArgs(lparen, s, args).value.0[k])
    decreases |s|
  {
    var a := TakeMacroArgSpec(s);
    var (arg, s1) := a.value;
    assert CleanArg(arg) by {
      TakeMacroArgShape(s);
    }
    var more := args + [arg];
    assert forall k | 0 <= k < |more| :: CleanArg(more[k]) by {
      assert more[|args|] == arg;
    }
    if s1[0].IsComma() {
      CollectArgsClean(lparen, s1[1..], more);
    }
  }

  /** `collect_macro_args`, with the end of the input an error (see `CollectArgs`). */
  method CollectMacroArgs(lparen: RawToken, c: Cursor.Cursor<RawToken>) returns (r: Res<seq<Tokens>>)
    modifies c
    ensures r == Value(CollectArgs(lparen, old(c.rest), []))
    ensures r.Ok? ==> c.rest == CollectArgs(lparen, old(c.rest), []).value.1
  {
    var args: seq<Tokens> := [];
    ghost var goal := CollectArgs(lparen, c.rest, []);
    while true
      invariant CollectArgs(lparen, c.rest, args) == goal
      decreases |c.rest|
    {
      ghost var before := c.rest;
      var arg := TakeMacroArg(c);
      if arg.Err? {
        return Err(arg.error);
      }
      args := args + [arg.value];
      var next := c.TakeOne();
      if next.None? {
        return Fail(ExpectedDelimiter, lparen);
      }
      if next.value.IsComma() {
        continue;
      } else if next.value.IsRParen() {
        break;
      } else if IsEol(next.value) {
        return Fail(ExpectedDelimiter, lparen);
      } else {
        TakeMacroArgShape(before);
        assert false;
      }
    }
    return Ok(args);
  }

  /** Where one pass of the `collect_macro_args` loop, as written, leaves it. */
  datatype CollectState = Collecting(args: seq<Tokens>, rest: Tokens) | Collected(args: seq<Tokens>, rest: Tokens) | Stopped(failure: Failure)

  /**
   * One pass of the loop of `collect_macro_args` as written: when no token
   * follows the argument, `take_one` gives `None`, nothing matches, and the
   * loop runs again.
   */
  function CollectStepAsWritten(lparen: RawToken, st: CollectState): (r: CollectState)
  {
    match st
    case Collecting(args, s) =>
      (match TakeMacroArgSpec(s)
       case Err(f) => Stopped(f)
       case Ok((arg, s1)) =>
         if s1 == [] then Collecting(args + [arg], s1)
         else if s1[0].IsComma() then Collecting(args + [arg], s1[1..])
         else if s1[0].IsRParen() then Collected(args + [arg], s1[1..])
         else Stopped(Syntax(SyntaxError(ExpectedDelimiter, lparen))))
    case _ => st
  }

  /** `k` passes of the loop as written. */
  function CollectAsWritten(lparen: RawToken, st: CollectState, k: nat): CollectState
    decreases k
  {
    if k == 0 then st else CollectStepAsWritten(lparen, CollectAsWritten(lparen, st, k - 1))
  }

  /** At the end of the input one pass as written collects an empty argument and reads nothing. */
  lemma CollectStepAtEnd(lparen: RawToken, args: seq<Tokens>)
    ensures CollectStepAsWritten(lparen, Collecting(args, [])) == Collecting(args + [[]], [])
  {
    assert TakeMacroArgSpec([]) == Ok(([], []));
  }

  /**
   * A macro call left open at the end of the input (`f(` as its last
   * tokens): the loop as written is still collecting after any number of
   * passes, with one more empty argument each time, so it never returns.
   */
  lemma {:induction false} CollectAsWrittenNeverEnds(lparen: RawToken, args: seq<Tokens>, k: nat)
    ensures var r := CollectAsWritten(lparen, Collecting(args, []), k);
      r.Collecting? && r.rest == [] && |r.args| == |args| + k
    decreases k
  {
    if k > 0 {
      CollectAsWrittenNeverEnds(lparen, args, k - 1);
      var r' := CollectAsWritten(lparen, Collecting(args, []), k - 1);
      CollectStepAtEnd(lparen, r'.args);
    }
  }

  /**
   * The corrected loop ends at the end of the input: a call whose
   * remaining tokens hold no `)`, comma or end of line is an error.
   */
  lemma UnclosedCallFails(lparen: RawToken, s: Tokens, args: seq<Tokens>)
    requires forall i | 0 <= i < |s| :: !s[i].IsRParen() && !s[i].IsComma() && IsNotEol(s[i])
    ensures CollectArgs(lparen, s, args).Err?
  {
    var s1 := SkipWs(s);
    assert forall i | 0 <= i < |s1| :: s1[i] == s[|s| - |s1| + i];
  }

  // ---------------------------------------------------------------------
  // Expansion

  /** `expand_macro_const`: the definition's tokens; a parameter in a constant panics. */
  function ExpandConst(def: seq<MacroToken>): (r: Res<Tokens>)
    ensures r.Ok? <==> forall i | 0 <= i < |def| :: def[i].Token?
    ensures r.Ok? ==> r.value == TokensOf(def)
    ensures r.Err? ==> r.error == Panicked
  {
    if forall i | 0 <= i < |def| :: def[i].Token? then Ok(TokensOf(def)) else Err(Panicked)
  }

  /** A constant built by `Macro::new_constant` expands to the tokens it was built from. */
  lemma ExpandConstRoundTrip(name: string, def: Tokens)
    ensures ExpandConst(NewConstant(name, def).def) == Ok(def)
  {
  }

  /** The index of the first parameter called `name`. */
  function Position(params: seq<string>, name: string): (r: Option<nat>)
    ensures r.Some? ==> r.value < |params| && params[r.value] == name
    ensures r.Some? ==> forall j | 0 <= j < r.value :: params[j] != name
    ensures r.None? <==> name !in params
  {
    if params == [] then None
    else if params[0] == name then Some(0)
    else match Position(params[1..], name)
      case None => assert params == [params[0]] + params[1..]; None
      case Some(k) => assert forall j | 1 <= j < k + 1 :: params[j] == params[1..][j - 1]; Some(k + 1)
  }

  /**
   * What `expand_macro_func` builds, definition token by definition token:
   * a parameter becomes the tokens of the argument at its name's position,
   * any other token is copied; a parameter whose name is not in `params`
   * panics (the `unwrap` of `position`).
   */
  function Substitute(def: seq<MacroToken>, params: seq<string>, args: seq<Tokens>): (r: Res<Tokens>)
    requires |args| == |params|
    ensures r.Err? ==> r.error == Panicked
    decreases |def|
  {
    if def == [] then Ok([])
    else
      var pre := Substitute(def[..|def| - 1], params, args);
      if pre.Err? then pre
      else match def[|def| - 1]
        case Token(t) => Ok(pre.value + [t])
        case Parameter(t) =>
          match Position(params, t.text)
          case None => Err(Panicked)
          case Some(i) => Ok(pre.value + args[i])
  }

  /** Once a prefix of the definition panics, the whole expansion does. */
  lemma {:induction false} SubstitutePanicSticks(def: seq<MacroToken>, params: seq<string>, args: seq<Tokens>, k: nat)
    requires |args| == |params| && k <= |def|
    requires Substitute(def[..k], params, args).Err?
    ensures Substitute(def, params, args).Err?
    decreases |def|
  {
    if k < |def| {
      var init := def[..|def| - 1];
      assert init[..k] == def[..k];
      SubstitutePanicSticks(init, params, args, k);
    } else {
      assert def[..k] == def;
    }
  }

  /** A definition without parameters is copied unchanged. */
  lemma {:induction false} SubstituteCopies(def: seq<MacroToken>, params: seq<string>, args: seq<Tokens>)
    requires |args| == |params|
    requires forall i | 0 <= i < |def| :: def[i].Token?
    ensures Substitute(def, params, args) == Ok(TokensOf(def))
    decreases |def|
  {
    if def != [] {
      var init := def[..|def| - 1];
      SubstituteCopies(init, params, args);
      assert TokensOf(def) == TokensOf(init) + [def[|def| - 1].tok];
    }
  }

  /**
   * A function macro built by `Macro::new_function` and called with each
   * parameter's own name as its argument gives back the tokens it was
   * built from, when the tokens named like parameters are identifiers.
   */
  lemma {:induction false} SubstituteIdentity(name: string, params: seq<string>, def: Tokens)
    requires forall i | 0 <= i < |def| :: def[i].text in params ==> def[i].kind == RawTokenKind.Identifier
    ensures Substitute(NewFunction(name, params, def).def, params, NameArgs(params)) == Ok(def)
    decreases |def|
  {
    if def != [] {
      var init := def[..|def| - 1];
      SubstituteIdentity(name, params, init);
      assert NewFunction(name, params, def).def[..|def| - 1] == NewFunction(name, params, init).def;
      var t := def[|def| - 1];
      assert def == init + [t];
      if t.text in params {
        var i := Position(params, t.text).value;
        assert NameArgs(params)[i] == [t];
      }
    }
  }

  /** Each parameter's name, as the one identifier of an argument. */
  function NameArgs(params: seq<string>): (args: seq<Tokens>)
    ensures |args| == |params|
  {
    seq(|params|, i requires 0 <= i < |params| => [RawToken(RawTokenKind.Identifier, params[i])])
  }

  /** `expand_macro_func`; the cloned token keeps its kind and its source text. */
  method ExpandMacroFunc(token: RawToken, args: seq<Tokens>, params: seq<string>, def: seq<MacroToken>)
    returns (r: Res<Tokens>)
    requires token.IsIdentifier() && |args| == |params|
    ensures r == Substitute(def, params, args)
  {
    var tokens: Tokens := [];
    for k := 0 to |def|
      invariant Substitute(def[..k], params, args) == Ok(tokens)
    {
      assert def[..k + 1][..k] == def[..k];
      match def[k]
      case Parameter(defTok) =>
        var index := Position(params, defTok.text);
        if index.None? {
          SubstitutePanicSticks(def, params, args, k + 1);
          return Err(Panicked);
        }
        var arg := args[index.value];
        ghost var before := tokens;
        for j := 0 to |arg|
          invariant tokens == before + arg[..j]
        {
          tokens := tokens + [arg[j]];
          assert arg[..j + 1] == arg[..j] + [arg[j]];
        }
        assert arg[..|arg|] == arg;
      case Token(defTok) =>
        tokens := tokens + [defTok];
    }
    assert def[..|def|] == def;
    return Ok(tokens);
  }

  /**
   * `expand_macro_once` on the tokens after the macro's name: a call of
   * an overload when `(` follows and the set has overloads (no overload
   * for that many arguments panics), else the constant, else nothing,
   * with no token read.  The arguments are read by the corrected
   * `CollectArgs`: a call left open at the end of the input is an error
   * here, where the code as written never returns
   * (`CollectAsWrittenNeverEnds`).
   */
  function ExpandOnceSpec(s: Tokens, ms: MacroSet): (r: Res<(Option<Tokens>, Tokens)>)
    ensures r.Ok? ==> SuffixOf(r.value.1, s)
    ensures r.Ok? && r.value.0.None? ==> r.value.1 == s && !ms.HasConstant()
    ensures r.Ok? && r.value.1 == s ==> !(s != [] && s[0].IsLParen() && ms.HasOverloads())
  {
    if s != [] && s[0].IsLParen() && ms.HasOverloads() then
      var a := CollectArgs(s[0], s[1..], []);
      if a.Err? then Err(a.error)
      else
        var (args, rest) := a.value;
        SuffixOfTrans(rest, s[1..], s);
        match ms.GetOverload(|args|)
        case None => Err(Panicked)
        case Some(o) =>
          var e := Substitute(o.def, o.params, args);
          if e.Err? then Err(e.error) else Ok((Some(e.value), rest))
    else match ms.GetConstant()
      case Some(def) =>
        var e := ExpandConst(def);
        if e.Err? then Err(e.error) else Ok((Some(e.value), s))
      case None => Ok((None, s))
  }

  /** `expand_macro_once` */
  method ExpandMacroOnce(token: RawToken, c: Cursor.Cursor<RawToken>, ms: MacroSet) returns (r: Res<Option<Tokens>>)
    requires token.IsIdentifier()
    modifies c
    ensures r == Value(ExpandOnceSpec(old(c.rest), ms))
    ensures r.Ok? ==> c.rest == ExpandOnceSpec(old(c.rest), ms).value.1
  {
    if c.rest != [] && c.rest[0].IsLParen() && ms.HasOverloads() {
      var lparen := c.TakeOne();
      var args := CollectMacroArgs(lparen.value, c);
      if args.Err? {
        return Err(args.error);
      }
      match ms.GetOverload(|args.value|)
      case Some(o) =>
        var e := ExpandMacroFunc(token, args.value, o.params, o.def);
        if e.Err? {
          return Err(e.error);
        }
        return Ok(Some(e.value));
      case None =>
        return Err(Panicked);
    } else if ms.GetConstant().Some? {
      var e := ExpandConst(ms.GetConstant().value);
      if e.Err? {
        return Err(e.error);
      }
      return Ok(Some(e.value));
    } else {
      return Ok(None);
    }
  }

  /** `a` then `b`: the first failure, or both token sequences in order. */
  function Then(a: Res<Tokens>, b: Res<Tokens>): Res<Tokens>
  {
    if a.Err? then a else if b.Err? then b else Ok(a.value + b.value)
  }

  lemma ThenAssoc(a: Res<Tokens>, b: Res<Tokens>, c: Res<Tokens>)
    ensures Then(Then(a, b), c) == Then(a, Then(b, c))
  {
    if a.Ok? && b.Ok? && c.Ok? {
      assert (a.value + b.value) + c.value == a.value + (b.value + c.value);
    }
  }

  /**
   * The full expansion of the tokens `s` of a level of the working stack of
   * `expand_macro` at depth `depth` (the stack's length): each identifier
   * that names a macro and expands is replaced by the full expansion of
   * what it expands to, one level deeper; the arguments of such a call are
   * read from `s`.  A level deeper than `RECURSION_LIMIT` fails at the
   * macro `origin` that `expand_macro` was called for.
   */
  function ExpandLevel(s: Tokens, depth: nat, origin: RawToken, defs: map<string, MacroSet>): (r: Res<Tokens>)
    decreases if depth <= RECURSION_LIMIT then RECURSION_LIMIT + 1 - depth else 0, |s|
  {
    if depth > RECURSION_LIMIT then Fail(RecursionLimit, origin)
    else if s == [] then Ok([])
    else
      var t := s[0];
      if t.IsIdentifier() && t.text in defs then
        var once := ExpandOnceSpec(s[1..], defs[t.text]);
        if once.Err? then Err(once.error)
        else
          var (e, rest) := once.value;
          if e.None? then Then(Ok([t]), ExpandLevel(s[1..], depth, origin, defs))
          else Then(ExpandLevel(e.value, depth + 1, origin, defs), ExpandLevel(rest, depth, origin, defs))
      else Then(Ok([t]), ExpandLevel(s[1..], depth, origin, defs))
  }

  /** Tokens no longer expandable as constants: no identifier names a macro with a constant. */
  predicate Expanded(out: Tokens, defs: map<string, MacroSet>)
  {
    forall i | 0 <= i < |out| :: out[i].IsIdentifier() && out[i].text in defs ==> !defs[out[i].text].HasConstant()
  }

  /** A successful expansion, if any, is complete. */
  predicate Complete(r: Res<Tokens>, defs: map<string, MacroSet>)
  {
    r.Ok? ==> Expanded(r.value, defs)
  }

  lemma CompleteThen(a: Res<Tokens>, b: Res<Tokens>, defs: map<string, MacroSet>)
    requires Complete(a, defs) && Complete(b, defs)
    ensures Complete(Then(a, b), defs)
  {
    if a.Ok? && b.Ok? {
      var o := a.value + b.value;
      assert forall i | |a.value| <= i < |o| :: o[i] == b.value[i - |a.value|];
    }
  }

  /** Whether the first token of `s` names a macro that expands there. */
  predicate Calls(s: Tokens, defs: map<string, MacroSet>)
  {
    && s != [] && s[0].IsIdentifier() && s[0].text in defs
    && ExpandOnceSpec(s[1..], defs[s[0].text]).Ok?
    && ExpandOnceSpec(s[1..], defs[s[0].text]).value.0.Some?
  }

  /**
   * The expansion is complete: no token of a successful expansion is an
   * identifier naming a macro that has a constant definition.
   */
  lemma {:induction false} ExpandLevelComplete(s: Tokens, depth: nat, origin: RawToken, defs: map<string, MacroSet>)
    ensures Complete(ExpandLevel(s, depth, origin, defs), defs)
    decreases if depth <= RECURSION_LIMIT then RECURSION_LIMIT + 1 - depth else 0, |s|, 1
  {
    if depth <= RECURSION_LIMIT && s != [] {
      if Calls(s, defs) {
        ExpandCallComplete(s, depth, origin, defs);
      } else if !(s[0].IsIdentifier() && s[0].text in defs) || ExpandOnceSpec(s[1..], defs[s[0].text]).Ok? {
        ExpandLevelComplete(s[1..], depth, origin, defs);
        CompleteThen(Ok([s[0]]), ExpandLevel(s[1..], depth, origin, defs), defs);
      }
    }
  }

  /** `ExpandLevelComplete` for a level that starts with a call. */
  lemma {:induction false} ExpandCallComplete(s: Tokens, depth: nat, origin: RawToken, defs: map<string, MacroSet>)
    requires depth <= RECURSION_LIMIT && Calls(s, defs)
    ensures Complete(ExpandLevel(s, depth, origin, defs), defs)
    decreases RECURSION_LIMIT + 1 - depth, |s|, 0
  {
    var (e, rest) := ExpandOnceSpec(s[1..], defs[s[0].text]).value;
    ExpandLevelComplete(e.value, depth + 1, origin, defs);
    ExpandLevelComplete(rest, depth, origin, defs);
    CompleteThen(ExpandLevel(e.value, depth + 1, origin, defs), ExpandLevel(rest, depth, origin, defs), defs);
  }

  /** Tokens that name no macro come out of a level unchanged. */
  lemma {:induction false} ExpandLevelKeeps(s: Tokens, depth: nat, origin: RawToken, defs: map<string, MacroSet>)
    requires depth <= RECURSION_LIMIT
    requires forall i | 0 <= i < |s| :: !(s[i].IsIdentifier() && s[i].text in defs)
    ensures ExpandLevel(s, depth, origin, defs) == Ok(s)
    decreases |s|
  {
    if s != [] {
      ExpandLevelKeeps(s[1..], depth, origin, defs);
      assert [s[0]] + s[1..] == s;
    }
  }

  /** The macro of `%define a a`. */
  function SelfDefined(a: RawToken): map<string, MacroSet>
  {
    map[a.text := MacroSet(a.text, Some([Token(a)]), [])]
  }

  /** A macro defined as itself fails at every depth: the working stack outgrows the limit. */
  lemma {:induction false} SelfReferenceFails(a: RawToken, depth: nat, origin: RawToken)
    requires a.IsIdentifier()
    ensures ExpandLevel([a], depth, origin, SelfDefined(a)) == Fail(RecursionLimit, origin)
    decreases if depth <= RECURSION_LIMIT then RECURSION_LIMIT + 1 - depth else 0
  {
    if depth <= RECURSION_LIMIT {
      var defs := SelfDefined(a);
      assert TokensOf([Token(a)]) == [a];
      assert ExpandOnceSpec([], defs[a.text]) == Ok((Some([a]), []));
      SelfReferenceFails(a, depth + 1, origin);
    }
  }

  /**
   * `expand_macro(token, tokens, defs)` on the unread tokens: the macro's
   * one expansion, fully expanded from depth 1; the name itself when it
   * does not expand.  Calls are read by the corrected `CollectArgs` (see
   * `ExpandOnceSpec`).
   */
  function ExpandMacroSpec(token: RawToken, s: Tokens, defs: map<string, MacroSet>): (r: Res<(Tokens, Tokens)>)
    requires token.text in defs
    ensures r.Ok? ==> SuffixOf(r.value.1, s)
  {
    var once := ExpandOnceSpec(s, defs[token.text]);
    if once.Err? then Err(once.error)
    else
      var (e, rest) := once.value;
      if e.None? then Ok(([token], rest))
      else
        var out := ExpandLevel(e.value, 1, token, defs);
        if out.Err? then Err(out.error) else Ok((out.value, rest))
  }

  /** `expand_macro` expands completely. */
  lemma ExpandMacroComplete(token: RawToken, s: Tokens, defs: map<string, MacroSet>)
    requires token.text in defs
    ensures ExpandMacroSpec(token, s, defs).Ok? ==> Expanded(ExpandMacroSpec(token, s, defs).value.0, defs)
  {
    var once := ExpandOnceSpec(s, defs[token.text]);
    if once.Ok? && once.value.0.Some? {
      ExpandLevelComplete(once.value.0.value, 1, token, defs);
    }
  }

  /** `%define a a`, then `a`: the recursion limit error, at `a`. */
  lemma SelfReferenceLimit(a: RawToken, s: Tokens)
    requires a.IsIdentifier()
    ensures ExpandMacroSpec(a, s, SelfDefined(a)) == Fail(RecursionLimit, a)
  {
    var defs := SelfDefined(a);
    assert TokensOf([Token(a)]) == [a];
    assert ExpandOnceSpec(s, defs[a.text]) == Ok((Some([a]), s));
    SelfReferenceFails(a, 1, a);
  }

  /** The levels of the working stack, deepest last, expanded from the deepest up. */
  function ExpandStack(working: seq<Tokens>, origin: RawToken, defs: map<string, MacroSet>): Res<Tokens>
    decreases |working|
  {
    if working == [] then Ok([])
    else Then(ExpandLevel(working[|working| - 1], |working|, origin, defs), ExpandStack(working[..|working| - 1], origin, defs))
  }

  /** How many passes the loops of `expand_macro` make over a level; bounds its work. */
  ghost function LevelSteps(s: Tokens, depth: nat, defs: map<string, MacroSet>): nat
    decreases if depth <= RECURSION_LIMIT then RECURSION_LIMIT + 1 - depth else 0, |s|
  {
    if depth > RECURSION_LIMIT || s == [] then 1
    else
      var t := s[0];
      if t.IsIdentifier() && t.text in defs then
        var once := ExpandOnceSpec(s[1..], defs[t.text]);
        if once.Err? then 1
        else
          var (e, rest) := once.value;
          if e.None? then 1 + LevelSteps(s[1..], depth, defs)
          else 1 + LevelSteps(e.value, depth + 1, defs) + LevelSteps(rest, depth, defs)
      else 1 + LevelSteps(s[1..], depth, defs)
  }

  ghost function StackSteps(working: seq<Tokens>, defs: map<string, MacroSet>): nat
    decreases |working|
  {
    if working == [] then 0
    else StackSteps(working[..|working| - 1], defs) + LevelSteps(working[|working| - 1], |working|, defs)
  }

  /** The top of the working stack, and the stack below it. */
  lemma StackTop(below: seq<Tokens>, temp: Tokens, origin: RawToken, defs: map<string, MacroSet>)
    ensures ExpandStack(below + [temp], origin, defs) == Then(ExpandLevel(temp, |below| + 1, origin, defs), ExpandStack(below, origin, defs))
    ensures StackSteps(below + [temp], defs) == StackSteps(below, defs) + LevelSteps(temp, |below| + 1, defs)
  {
    assert (below + [temp])[..|below|] == below;
  }

  /** Tokens that do not expand move to the output. */
  lemma ThenMoves(out: Tokens, moved: Tokens, x: Res<Tokens>, y: Res<Tokens>)
    ensures Then(Ok(out), Then(Then(Ok(moved), x), y)) == Then(Ok(out + moved), Then(x, y))
  {
    ThenAssoc(Ok(out), Then(Ok(moved), x), y);
    ThenAssoc(Ok(out), Ok(moved), x);
    ThenAssoc(Ok(out + moved), x, y);
  }

  lemma ThenNil(x: Res<Tokens>)
    ensures Then(Ok([]), x) == x
  {
    if x.Ok? {
      assert [] + x.value == x.value;
    }
  }

  /** How a pass over the top of the working stack ends. */
  datatype PassEnd = Drained | Pushed(expansion: Tokens)

  /**
   * The inner loop of `expand_macro` over the level at the top of the
   * working stack, at depth `depth`: the tokens that do not expand move to
   * `moved`; the first that does ends the pass with its expansion, the
   * cursor on the rest of the level.  A pass costs at least one step.
   */
  method ExpandPass(tokens: Cursor.Cursor<RawToken>, depth: nat, ghost origin: RawToken, defs: MacroTable) returns (r: Res<PassEnd>, moved: Tokens)
    requires depth <= RECURSION_LIMIT
    modifies tokens
    ensures r.Err? ==> ExpandLevel(old(tokens.rest), depth, origin, defs.sets) == Err(r.error)
    ensures r == Ok(Drained) ==> ExpandLevel(old(tokens.rest), depth, origin, defs.sets) == Ok(moved)
    ensures r.Ok? && r.value.Pushed? ==>
      ExpandLevel(old(tokens.rest), depth, origin, defs.sets) ==
        Then(Ok(moved), Then(ExpandLevel(r.value.expansion, depth + 1, origin, defs.sets), ExpandLevel(tokens.rest, depth, origin, defs.sets)))
    ensures r.Ok? && r.value.Pushed? ==>
      LevelSteps(old(tokens.rest), depth, defs.sets) > LevelSteps(r.value.expansion, depth + 1, defs.sets) + LevelSteps(tokens.rest, depth, defs.sets)
  {
    moved := [];
    ghost var start := tokens.rest;
    ThenNil(ExpandLevel(start, depth, origin, defs.sets));
    while tokens.rest != []
      invariant ExpandLevel(start, depth, origin, defs.sets) == Then(Ok(moved), ExpandLevel(tokens.rest, depth, origin, defs.sets))
      invariant LevelSteps(tokens.rest, depth, defs.sets) <= LevelSteps(start, depth, defs.sets)
      decreases |tokens.rest|
    {
      ghost var cur := tokens.rest;
      var next := tokens.TakeOne();
      var t := next.value;
      assert cur[0] == t && cur[1..] == tokens.rest;
      if t.IsIdentifier() && defs.HasName(t.text) {
        var e := ExpandMacroOnce(t, tokens, defs.sets[t.text]);
        if e.Err? {
          return Err(e.error), moved;
        }
        if e.value.Some? {
          return Ok(Pushed(e.value.value)), moved;
        }
      }
      assert ExpandLevel(cur, depth, origin, defs.sets) == Then(Ok([t]), ExpandLevel(tokens.rest, depth, origin, defs.sets));
      ThenAssoc(Ok(moved), Ok([t]), ExpandLevel(tokens.rest, depth, origin, defs.sets));
      moved := moved + [t];
    }
    assert moved + [] == moved;
    return Ok(Drained), moved;
  }

  /**
   * The working-stack loop of `expand_macro`, started on the one expansion
   * `top` of the macro `origin`: the stack holds the unread rest of every
   * level, deepest last; a name that expands parks the rest of its level
   * and pushes its expansion; a stack deeper than `RECURSION_LIMIT` fails.
   */
  method ExpandWorking(top: Tokens, origin: RawToken, defs: MacroTable) returns (r: Res<Tokens>)
    ensures r == ExpandLevel(top, 1, origin, defs.sets)
  {
    ghost var goal := ExpandLevel(top, 1, origin, defs.sets);
    var out: Tokens := [];
    var working: seq<Tokens> := [top];
    assert working[..0] == [];
    assert goal.Ok? ==> goal.value + [] == goal.value && [] + goal.value == goal.value;
    while working != []
      invariant |working| <= RECURSION_LIMIT + 1
      invariant Then(Ok(out), ExpandStack(working, origin, defs.sets)) == goal
      decreases StackSteps(working, defs.sets)
    {
      var temp := working[|working| - 1];
      var depth := |working|;
      var below := working[..depth - 1];
      if depth > RECURSION_LIMIT {
        return Fail(RecursionLimit, origin);
      }
      var tokens := new Cursor.Cursor<RawToken>(temp);
      var pass, moved := ExpandPass(tokens, depth, origin, defs);
      if pass.Err? {
        return Err(pass.error);
      }
      ghost var y := ExpandStack(below, origin, defs.sets);
      match pass.value
      case Drained =>
        ThenAssoc(Ok(out), Ok(moved), y);
        out := out + moved;
        working := below;
      case Pushed(x) =>
        var pushed := below + [tokens.rest] + [x];
        StackTop(below, tokens.rest, origin, defs.sets);
        StackTop(below + [tokens.rest], x, origin, defs.sets);
        ThenMoves(out, moved, Then(ExpandLevel(x, depth + 1, origin, defs.sets), ExpandLevel(tokens.rest, depth, origin, defs.sets)), y);
        ThenAssoc(ExpandLevel(x, depth + 1, origin, defs.sets), ExpandLevel(tokens.rest, depth, origin, defs.sets), y);
        out := out + moved;
        working := pushed;
    }
    assert out + [] == out;
    return Ok(out);
  }

  /**
   * `expand_macro(token, tokens, defs)`: the macro's one expansion, then
   * the working-stack loop over it; the name itself when it does not
   * expand.
   */
  method ExpandMacro(token: RawToken, c: Cursor.Cursor<RawToken>, defs: MacroTable) returns (r: Res<Tokens>)
    requires token.IsIdentifier() && token.text in defs.sets
    modifies c
    ensures r == Value(ExpandMacroSpec(token, old(c.rest), defs.sets))
    ensures r.Ok? ==> c.rest == ExpandMacroSpec(token, old(c.rest), defs.sets).value.1
  {
    var macroset := defs.sets[token.text];
    var expanded := ExpandMacroOnce(token, c, macroset);
    if expanded.Err? {
      return Err(expanded.error);
    }
    if expanded.value.None? {
      return Ok([token]);
    }
    r := ExpandWorking(expanded.value.value, token, defs);
  }

  // ---------------------------------------------------------------------
  // Macro definitions

  ghost predicate Distinct(params: seq<string>)
  {
    forall i, j | 0 <= i < j < |params| :: params[i] != params[j]
  }

  /**
   * The replace-or-add step of the parameter list: an earlier parameter of
   * the same name is removed, and the name goes last.
   */
  function PushParam(params: seq<string>, name: string): (r: seq<string>)
    ensures |r| > 0 && r[|r| - 1] == name
    ensures forall x :: x in r <==> x in params || x == name
  {
    match Position(params, name)
    case None => params + [name]
    case Some(i) =>
      assert params == params[..i] + [name] + params[i + 1..];
      params[..i] + params[i + 1..] + [name]
  }

  lemma PushParamDistinct(params: seq<string>, name: string)
    requires Distinct(params)
    ensures Distinct(PushParam(params, name))
  {
    match Position(params, name)
    case None =>
    case Some(i) =>
      var kept := params[..i] + params[i + 1..];
      assert forall k | 0 <= k < |kept| :: kept[k] == if k < i then params[k] else params[k + 1];
      assert name !in kept;
  }

  /**
   * The parameter loop of `preprocess_define_func` from `s` on (leading
   * whitespace already read), with the parameters `params` so far: the
   * list ends at a `)`, or without one at the end of the line; a
   * parameter must be an identifier, followed by a `,` or the `)`.
   */
  function ParamList(s: Tokens, params: seq<string>, lparen: RawToken): (r: Res<(seq<string>, Tokens)>)
    ensures r.Ok? ==> |r.value.1| <= |s|
    decreases |s|
  {
    if s == [] || IsEol(s[0]) then Ok((params, s))
    else
      var p := s[0];
      if p.IsRParen() then Ok((params, s[1..]))
      else if !p.IsIdentifier() then Fail(UnexpectedToken, p)
      else
        var more := PushParam(params, p.text);
        var s2 := SkipWs(s[1..]);
        if s2 == [] || IsEol(s2[0]) then Fail(ExpectedDelimiter, lparen)
        else if s2[0].IsRParen() then Ok((more, s2[1..]))
        else if s2[0].IsComma() then
          var s3 := SkipWs(s2[1..]);
          ParamList(s3, more, lparen)
        else Fail(UnexpectedToken, s2[0])
  }

  /**
   * The parameters are distinct, every name read is one of them, and so is
   * every parameter read before.
   */
  lemma {:induction false} ParamListDistinct(s: Tokens, params: seq<string>, lparen: RawToken)
    requires Distinct(params)
    ensures ParamList(s, params, lparen).Ok? ==> Distinct(ParamList(s, params, lparen).value.0)
    ensures ParamList(s, params, lparen).Ok? ==> forall x | x in params :: x in ParamList(s, params, lparen).value.0
    decreases |s|
  {
    if s != [] && !IsEol(s[0]) && !s[0].IsRParen() && s[0].IsIdentifier() {
      var more := PushParam(params, s[0].text);
      PushParamDistinct(params, s[0].text);
      var s2 := SkipWs(s[1..]);
      if s2 != [] && !IsEol(s2[0]) && !s2[0].IsRParen() && s2[0].IsComma() {
        ParamListDistinct(SkipWs(s2[1..]), more, lparen);
      }
    }
  }

  /**
   * `preprocess_define_const` on the tokens after the name: whitespace,
   * then the definition up to the end of the line, which is read too.
   */
  function DefineConstSpec(name: string, s: Tokens): (r: (Macro, Tokens))
    ensures |r.1| <= |s|
    ensures forall i | 0 <= i < |r.0.def| :: IsNotEol(r.0.def[i].tok)
  {
    var s1 := SkipWs(s);
    var n := Cursor.PrefixWhile(s1, IsNotEol);
    (NewConstant(name, s1[..n]), SkipEol(s1[n..]))
  }

  /**
   * `preprocess_define_func` on the tokens after the `(` of the name:
   * the parameter list, whitespace, the definition up to the end of the
   * line, and one more token (the line's end).
   */
  function DefineFuncSpec(name: string, lparen: RawToken, s: Tokens): (r: Res<(Macro, Tokens)>)
    ensures r.Ok? ==> |r.value.1| <= |s|
    ensures r.Ok? ==> forall i | 0 <= i < |r.value.0.def| :: IsNotEol(r.value.0.def[i].tok)
  {
    var ps := ParamList(SkipWs(s), [], lparen);
    if ps.Err? then Err(ps.error)
    else
      var (def, rest) := FuncBody(ps.value.1);
      var m := NewFunction(name, ps.value.0, def);
      assert forall i | 0 <= i < |m.def| :: m.def[i].tok == TokensOf(m.def)[i];
      Ok((m, rest))
  }

  /**
   * The definition of a function macro: after whitespace, the tokens up to
   * the end of the line; one more token is read, the line's end.
   */
  function FuncBody(s: Tokens): (r: (Tokens, Tokens))
    ensures |r.1| <= |s|
    ensures forall i | 0 <= i < |r.0| :: IsNotEol(r.0[i])
  {
    var s1 := SkipWs(s);
    var n := Cursor.PrefixWhile(s1, IsNotEol);
    (s1[..n], if n < |s1| then s1[n + 1..] else [])
  }

  /**
   * `preprocess_define` on the tokens after `%define`: `None` for an empty
   * `%define` (its line's end is read); the name must be an identifier; a
   * name at the end of the line or of the input makes an empty constant
   * (the line's end is not read); whitespace after the name starts a
   * constant, a `(` a function; anything else is unexpected.
   */
  function DefineSpec(s: Tokens): (r: Res<(Option<Macro>, Tokens)>)
    ensures r.Ok? ==> |r.value.1| <= |s|
  {
    var s1 := SkipWs(s);
    if s1 == [] || IsEol(s1[0]) then
      Ok((None, SkipEol(s1)))
    else
      var name := s1[0];
      var s2 := s1[1..];
      if !name.IsIdentifier() then Fail(ExpectedMacroName, name)
      else if s2 == [] || IsEol(s2[0]) then Ok((Some(NewConstant(name.text, [])), s2))
      else if s2[0].IsWhitespace() then
        var (m, rest) := DefineConstSpec(name.text, s2);
        Ok((Some(m), rest))
      else if s2[0].IsLParen() then
        var f := DefineFuncSpec(name.text, s2[0], s2[1..]);
        if f.Err? then Err(f.error) else Ok((Some(f.value.0), f.value.1))
      else Fail(UnexpectedToken, s2[0])
  }

  /** The definition a `%define` makes stops at the line's end: it holds no comment or newline. */
  lemma DefineStopsAtEol(s: Tokens)
    ensures DefineSpec(s).Ok? && DefineSpec(s).value.0.Some? ==>
      forall i | 0 <= i < |DefineSpec(s).value.0.value.def| :: IsNotEol(DefineSpec(s).value.0.value.def[i].tok)
  {
    var s1 := SkipWs(s);
    if s1 != [] && !IsEol(s1[0]) && s1[0].IsIdentifier() {
      var s2 := s1[1..];
      if s2 != [] && !IsEol(s2[0]) && !s2[0].IsWhitespace() && s2[0].IsLParen() {
        var f := DefineFuncSpec(s1[0].text, s2[0], s2[1..]);
        assert f.Ok? ==> DefineSpec(s) == Ok((Some(f.value.0), f.value.1));
      }
    }
  }

  /** A function macro's parameters are distinct, and a definition token is a parameter when its text names one. */
  lemma DefineFuncParams(name: string, lparen: RawToken, s: Tokens)
    ensures DefineFuncSpec(name, lparen, s).Ok? ==> 
      var m := DefineFuncSpec(name, lparen, s).value.0;
      && m.params.Some? && Distinct(m.params.value)
      && forall i | 0 <= i < |m.def| :: m.def[i].Parameter? <==> m.def[i].tok.text in m.params.value
  {
    ParamListDistinct(SkipWs(s), [], lparen);
  }

  /** `preprocess_define_const` */
  method DefineConst(name: string, c: Cursor.Cursor<RawToken>) returns (m: Macro)
    modifies c
    ensures (m, c.rest) == DefineConstSpec(name, old(c.rest))
  {
    var _ := SkipWhitespace(c);
    var def := c.TakeWhile(IsNotEol);
    SkipEndOfLine(c);
    m := NewConstant(name, def);
  }

  /**
   * The parameter loop of `preprocess_define_func`, on a cursor after the
   * `(` and its whitespace.
   */
  method ParseParams(c: Cursor.Cursor<RawToken>, lparen: RawToken) returns (r: Res<seq<string>>)
    modifies c
    ensures r == Value(ParamList(old(c.rest), [], lparen))
    ensures r.Ok? ==> c.rest == ParamList(old(c.rest), [], lparen).value.1
  {
    var params: seq<string> := [];
    ghost var goal := ParamList(c.rest, [], lparen);
    var done := false;
    while !done
      invariant !done ==> ParamList(c.rest, params, lparen) == goal
      invariant done ==> goal == Ok((params, c.rest))
      decreases !done, |c.rest|
    {
      var param := c.TakeIf(IsNotEol);
      if param.None? {
        done := true;
      } else if param.value.IsRParen() {
        done := true;
      } else {
        var p := param.value;
        if !p.IsIdentifier() {
          return Fail(UnexpectedToken, p);
        }
        var index := Position(params, p.text);
        if index.Some? {
          params := params[..index.value] + params[index.value + 1..];
        }
        params := params + [p.text];
        var _ := SkipWhitespace(c);
        var next := c.TakeIf(IsNotEol);
        if next.None? {
          return Fail(ExpectedDelimiter, lparen);
        }
        if next.value.IsRParen() {
          done := true;
        } else if next.value.IsComma() {
          var _ := SkipWhitespace(c);
        } else {
          return Fail(UnexpectedToken, next.value);
        }
      }
    }
    return Ok(params);
  }

  /** The cursor steps that read a function macro's definition. */
  lemma FuncBodyRead(s: Tokens, def: Tokens, line: Tokens, rest: Tokens)
    requires |def| == Cursor.PrefixWhile(SkipWs(s), IsNotEol)
    requires def == SkipWs(s)[..|def|] && line == SkipWs(s)[|def|..]
    requires rest == if line == [] then [] else line[1..]
    ensures (def, rest) == FuncBody(s)
  {
  }

  /** `preprocess_define_func`, on a cursor at the `(` after the name. */
  method DefineFunc(name: string, c: Cursor.Cursor<RawToken>) returns (r: Res<Macro>)
    requires c.rest != [] && c.rest[0].IsLParen()
    modifies c
    ensures r == Value(DefineFuncSpec(name, old(c.rest)[0], old(c.rest)[1..]))
    ensures r.Ok? ==> c.rest == DefineFuncSpec(name, old(c.rest)[0], old(c.rest)[1..]).value.1
  {
    var lparen := c.TakeOne();
    var _ := SkipWhitespace(c);
    var params := ParseParams(c, lparen.value);
    if params.Err? {
      return Err(params.error);
    }
    ghost var s3 := c.rest;
    var _ := SkipWhitespace(c);
    var def := c.TakeWhile(IsNotEol);
    ghost var line := c.rest;
    var _ := c.TakeOne();
    FuncBodyRead(s3, def, line, c.rest);
    return Ok(NewFunction(name, params.value, def));
  }

  /** `preprocess_define`, on a cursor after the `%define` token. */
  method PreprocessDefine(c: Cursor.Cursor<RawToken>) returns (r: Res<Option<Macro>>)
    modifies c
    ensures r == Value(DefineSpec(old(c.rest)))
    ensures r.Ok? ==> c.rest == DefineSpec(old(c.rest)).value.1
  {
    var _ := SkipWhitespace(c);
    if c.rest == [] || IsEol(c.rest[0]) {
      SkipEndOfLine(c);
      return Ok(None);
    }
    var name := c.TakeOne();
    if !name.value.IsIdentifier() {
      return Fail(ExpectedMacroName, name.value);
    }
    var text := name.value.text;
    if c.rest != [] {
      var token := c.rest[0];
      if IsEol(token) {
        return Ok(Some(NewConstant(text, [])));
      } else if token.IsWhitespace() {
        var m := DefineConst(text, c);
        return Ok(Some(m));
      } else if token.IsLParen() {
        var m := DefineFunc(text, c);
        if m.Err? {
          return Err(m.error);
        }
        return Ok(Some(m.value));
      } else {
        return Fail(UnexpectedToken, token);
      }
    }
    return Ok(Some(NewConstant(text, [])));
  }

  // ---------------------------------------------------------------------
  // The preprocessor

  /**
   * What `preprocess_tokens` makes of `s` with the macro table `defs`: a
   * `%define` adds its macro to the table for the tokens after it, any
   * other directive and every comment are dropped, an identifier that
   * names a macro is replaced by its expansion, and every other token is
   * kept.  Slicing the `%` off a directive with no text panics.  Macro
   * calls are read by the corrected `CollectArgs` (see `ExpandOnceSpec`).
   */
  function PreprocessSpec(s: Tokens, defs: map<string, MacroSet>): (r: Res<Tokens>)
    requires TableValid(defs)
    decreases |s|
  {
    if s == [] then Ok([])
    else
      var t := s[0];
      if t.kind.PreProcessor? then
        if |t.text| == 0 then Err(Panicked)
        else if t.text[1..] == "define" then
          var d := DefineSpec(s[1..]);
          if d.Err? then Err(d.error)
          else
            var (m, rest) := d.value;
            PreprocessSpec(rest, if m.Some? then WithMacro(defs, m.value) else defs)
        else PreprocessSpec(s[1..], defs)
      else if t.IsIdentifier() && t.text in defs then
        var e := ExpandMacroSpec(t, s[1..], defs);
        if e.Err? then Err(e.error)
        else Then(Ok(e.value.0), PreprocessSpec(e.value.1, defs))
      else if t.IsComment() then PreprocessSpec(s[1..], defs)
      else Then(Ok([t]), PreprocessSpec(s[1..], defs))
  }

  /** `preprocess_tokens`: the cursor is read to its end, macros are added to the table. */
  method PreprocessTokens(c: Cursor.Cursor<RawToken>, defs: MacroTable) returns (r: Res<Tokens>)
    requires defs.Valid()
    modifies c, defs
    ensures defs.Valid()
    ensures r == PreprocessSpec(old(c.rest), old(defs.sets))
  {
    ghost var goal := PreprocessSpec(c.rest, defs.sets);
    if c.rest == [] {
      return Ok([]);
    }
    var out: Tokens := [];
    ThenNil(goal);
    while c.rest != []
      invariant defs.Valid()
      invariant Then(Ok(out), PreprocessSpec(c.rest, defs.sets)) == goal
      decreases |c.rest|
    {
      ghost var cur := c.rest;
      ghost var sets := defs.sets;
      var next := c.TakeOne();
      var token := next.value;
      assert cur[0] == token && cur[1..] == c.rest;
      match token.kind
      case PreProcessor =>
        if |token.text| == 0 {
          return Err(Panicked);
        }
        var directive := token.text[1..];
        if directive == "define" {
          var def := PreprocessDefine(c);
          if def.Err? {
            return Err(def.error);
          }
          if def.value.Some? {
            defs.AddMacro(def.value.value);
          }
        }
      case Identifier =>
        if defs.HasName(token.text) {
          var expanded := ExpandMacro(token, c, defs);
          if expanded.Err? {
            return Err(expanded.error);
          }
          ThenAssoc(Ok(out), Ok(expanded.value), PreprocessSpec(c.rest, sets));
          out := out + expanded.value;
        } else {
          ThenAssoc(Ok(out), Ok([token]), PreprocessSpec(c.rest, sets));
          out := out + [token];
        }
      case Comment =>
      case _ =>
        ThenAssoc(Ok(out), Ok([token]), PreprocessSpec(c.rest, sets));
        out := out + [token];
    }
    assert out + [] == out;
    return Ok(out);
  }

  /** The table of the first `n` predefined macros, added in order. */
  function DefsOf(predefs: seq<Macro>, n: nat): (r: map<string, MacroSet>)
    requires n <= |predefs|
    ensures TableValid(r)
  {
    if n == 0 then map[] else WithMacro(DefsOf(predefs, n - 1), predefs[n - 1])
  }

  /** What `preprocess` makes of `tokens` with the predefined macros `predefs`. */
  function PreprocessAll(tokens: Tokens, predefs: seq<Macro>): (r: Res<Tokens>)
  {
    if tokens == [] then Ok([]) else PreprocessSpec(tokens, DefsOf(predefs, |predefs|))
  }

  /** `preprocess`: nothing to do for no tokens; otherwise the predefined macros, then the tokens. */
  method Preprocess(tokens: Tokens, predefs: seq<Macro>) returns (r: Res<Tokens>)
    ensures r == PreprocessAll(tokens, predefs)
  {
    if |tokens| == 0 {
      return Ok([]);
    }
    var c := new Cursor.Cursor<RawToken>(tokens);
    var defs := new MacroTable();
    for i := 0 to |predefs|
      invariant defs.Valid() && defs.sets == DefsOf(predefs, i)
      invariant c.rest == tokens
    {
      defs.AddMacro(predefs[i]);
    }
    ghost var goal := PreprocessSpec(tokens, DefsOf(predefs, |predefs|));
    assert PreprocessAll(tokens, predefs) == goal;
    r := PreprocessTokens(c, defs);
  }

  /** `s` without its comments. */
  function DropComments(s: Tokens): (r: Tokens)
    ensures forall i | 0 <= i < |r| :: !r[i].IsComment()
    ensures |r| <= |s|
  {
    if s == [] then []
    else if s[0].IsComment() then DropComments(s[1..])
    else [s[0]] + DropComments(s[1..])
  }

  /**
   * Input with no directive and no name of a macro passes through, with
   * only its comments dropped.
   */
  lemma {:induction false} PreprocessPassesThrough(s: Tokens, defs: map<string, MacroSet>)
    requires TableValid(defs)
    requires forall i | 0 <= i < |s| :: !s[i].kind.PreProcessor? && !(s[i].IsIdentifier() && s[i].text in defs)
    ensures PreprocessSpec(s, defs) == Ok(DropComments(s))
    decreases |s|
  {
    if s != [] {
      PreprocessPassesThrough(s[1..], defs);
    }
  }

  // An example: `%define X 1`, a newline, then `X`.

  const DefineTok := RawToken(PreProcessor, "%define")
  const SpaceTok := RawToken(Whitespace, " ")
  const XTok := RawToken(RawTokenKind.Identifier, "X")
  const OneTok := RawToken(RawTokenKind.Number(1), "1")
  const NewlineTok := RawToken(RawTokenKind.Newline, "\n")

  /** After the name, the constant's line: its definition is `1`, and the line's end is read. */
  lemma ExampleConst()
    ensures DefineConstSpec("X", [SpaceTok, OneTok, NewlineTok, XTok]) == (NewConstant("X", [OneTok]), [XTok])
  {
    var s2 := [SpaceTok, OneTok, NewlineTok, XTok];
    assert Cursor.PrefixWhile(s2, IsSpace) == 1;
    var s3 := [OneTok, NewlineTok, XTok];
    assert SkipWs(s2) == s3;
    assert Cursor.PrefixWhile(s3, IsNotEol) == 1;
    assert s3[..1] == [OneTok];
    assert SkipEol(s3[1..]) == [XTok];
  }

  /** `%define` of a name followed by whitespace is the constant that line defines. */
  lemma DefineConstantCase(s: Tokens, s1: Tokens, s2: Tokens)
    requires s1 == SkipWs(s) && s1 != [] && !IsEol(s1[0]) && s1[0].IsIdentifier()
    requires s2 == s1[1..] && s2 != [] && !IsEol(s2[0]) && s2[0].IsWhitespace()
    ensures DefineSpec(s) == Ok((Some(DefineConstSpec(s1[0].text, s2).0), DefineConstSpec(s1[0].text, s2).1))
  {
  }

  /** The definition reads the line and its end, and makes the constant `X` = `1`. */
  lemma ExampleDefine()
    ensures DefineSpec([SpaceTok, XTok, SpaceTok, OneTok, NewlineTok, XTok]) == Ok((Some(NewConstant("X", [OneTok])), [XTok]))
  {
    var s := [SpaceTok, XTok, SpaceTok, OneTok, NewlineTok, XTok];
    var s1 := [XTok, SpaceTok, OneTok, NewlineTok, XTok];
    assert SkipWs(s) == s1 by {
      assert Cursor.PrefixWhile(s, IsSpace) == 1;
    }
    assert !IsEol(s1[0]) && s1[0].IsIdentifier() && s1[0].text == "X";
    var s2 := [SpaceTok, OneTok, NewlineTok, XTok];
    assert s1[1..] == s2;
    assert !IsEol(s2[0]) && s2[0].IsWhitespace();
    DefineConstantCase(s, s1, s2);
    ExampleConst();
  }

  /** With `X` defined as `1`, `X` becomes `1`. */
  lemma ExampleUse()
    ensures PreprocessSpec([XTok], WithMacro(map[], NewConstant("X", [OneTok]))) == Ok([OneTok])
  {
    var m := NewConstant("X", [OneTok]);
    assert m.def == [Token(OneTok)] by {
      assert m.def[0].Token? && m.def[0].tok == OneTok;
    }
    var defs := WithMacro(map[], m);
    assert defs["X"].constant == Some([Token(OneTok)]);
    assert TokensOf([Token(OneTok)]) == [OneTok];
    assert ExpandOnceSpec([], defs["X"]) == Ok((Some([OneTok]), []));
    assert [OneTok] + [] == [OneTok];
    assert ExpandLevel([OneTok], 1, XTok, defs) == Ok([OneTok]);
  }

  /** `%define X 1`, a newline, then `X`: the output is the `1` alone. */
  lemma DefineThenUse()
    ensures PreprocessSpec([DefineTok, SpaceTok, XTok, SpaceTok, OneTok, NewlineTok, XTok], map[]) == Ok([OneTok])
  {
    var s := [DefineTok, SpaceTok, XTok, SpaceTok, OneTok, NewlineTok, XTok];
    assert DefineTok.text[1..] == "define";
    assert s[1..] == [SpaceTok, XTok, SpaceTok, OneTok, NewlineTok, XTok];
    ExampleDefine();
    ExampleUse();
  }
}
