/**
 * Placeholder substitution as `text.replaceAll(/<open>(\w+)<close>/g, f)`
 * performs it, for the two placeholder syntaxes of the project (`__NAME__`
 * and `[[NAME]]`) and the two ways a value is rejected (undefined, or any
 * falsy value), followed by the write of the result.
 *
 * `replaceAll` first finds every match, scanning left to right and
 * resuming after each match, and then replaces each match in order by
 * the callback's result; `Tokenize` is the scan and `Substitute` the
 * replacement, so inserted values are never scanned again.
 */
module Templates {
  import opened Wrappers
  import opened Decimal

  /** `\w` without the `u` flag: ASCII letters, digits and `_`. */
  predicate IsWordChar(c: char) {
    ('a' <= c <= 'z') || ('A' <= c <= 'Z') || ('0' <= c <= '9') || c == '_'
  }

  predicate AllWordChars(s: string) {
    forall i :: 0 <= i < |s| ==> IsWordChar(s[i])
  }

  /** The literal text around the capture group of the placeholder pattern. */
  datatype Delimiters = Delimiters(open: string, close: string)

  /** `/__(\w+)__/g` (src/libs/template.ts, src/libs/svg.ts). */
  const Underscores: Delimiters := Delimiters("__", "__")

  /** `/\[\[(\w+)]]/g` (src/svg.ts). */
  const Brackets: Delimiters := Delimiters("[[", "]]")

  /** The length of the run of word characters that starts `s`. */
  function WordRun(s: string): (n: nat)
    ensures n <= |s| && AllWordChars(s[..n])
    ensures n < |s| ==> !IsWordChar(s[n])
  {
    if s != [] && IsWordChar(s[0]) then
      var n := 1 + WordRun(s[1..]);
      assert forall i :: 1 <= i < n ==> s[..n][i] == s[1..][..n - 1][i - 1];
      n
    else 0
  }

  /**
   * Greedy `\w+` backing off one character at a time: the largest length
   * in `1..k` after which `close` follows, or 0 if there is none.
   */
  function NameLength(s: string, close: string, k: nat): (n: nat)
    requires k <= |s|
    ensures n <= k
    ensures n > 0 ==> close <= s[n..]
    decreases k
  {
    if k == 0 then 0 else if close <= s[k..] then k else NameLength(s, close, k - 1)
  }

  /** No longer length up to `k` is followed by `close`. */
  lemma {:induction false} NameLengthMaximal(s: string, close: string, k: nat, j: nat)
    requires k <= |s| && NameLength(s, close, k) < j <= k
    ensures !(close <= s[j..])
    decreases k
  {
    if j == k {
      assert NameLength(s, close, k) != k;
    } else {
      NameLengthMaximal(s, close, k - 1, j);
    }
  }

  /** The name captured by a match of the pattern at the very start of `t`, if there is one. */
  function MatchAt(d: Delimiters, t: string): (name: Option<string>)
    ensures name.Some? ==> |name.value| > 0 && AllWordChars(name.value)
    ensures name.Some? ==> d.open + name.value + d.close <= t
  {
    if d.open <= t then
      var rest := t[|d.open|..];
      var n := NameLength(rest, d.close, WordRun(rest));
      if n == 0 then None
      else
        WordsPrefix(rest, WordRun(rest), n);
        Framed(d, t, n);
        Some(rest[..n])
    else None
  }

  lemma WordsPrefix(s: string, k: nat, n: nat)
    requires n <= k <= |s| && AllWordChars(s[..k])
    ensures AllWordChars(s[..n])
  {
    assert forall i :: 0 <= i < n ==> s[..n][i] == s[..k][i];
  }

  lemma Framed(d: Delimiters, t: string, n: nat)
    requires d.open <= t && n <= |t| - |d.open| && d.close <= t[|d.open|..][n..]
    ensures d.open + t[|d.open|..][..n] + d.close <= t
  {
    var rest := t[|d.open|..];
    assert t[..|d.open| + n + |d.close|] == d.open + rest[..n] + d.close;
  }

  /**
   * A match exists exactly when some non-empty word run between the
   * delimiters starts `t`, and the captured name is the longest such run.
   */
  lemma MatchAtIsLongest(d: Delimiters, t: string, m: string)
    requires |m| > 0 && AllWordChars(m) && d.open + m + d.close <= t
    ensures MatchAt(d, t).Some? && |m| <= |MatchAt(d, t).value|
  {
    var rest := t[|d.open|..];
    OpenSplit(d, m, t);
    CloseSplit(m, d.close, rest);
    WordRunCovers(rest, m);
    var n := NameLength(rest, d.close, WordRun(rest));
    if n < |m| {
      NameLengthMaximal(rest, d.close, WordRun(rest), |m|);
    }
    MatchAtFound(d, t);
  }

  lemma OpenSplit(d: Delimiters, m: string, t: string)
    requires d.open + m + d.close <= t
    ensures d.open <= t && m + d.close <= t[|d.open|..]
  {
    assert (d.open + m + d.close)[..|d.open|] == d.open;
    assert (d.open + m + d.close)[|d.open|..] == m + d.close;
  }

  lemma CloseSplit(m: string, close: string, rest: string)
    requires m + close <= rest
    ensures m <= rest && close <= rest[|m|..]
  {
    assert (m + close)[..|m|] == m;
    assert rest[|m|..][..|close|] == close;
  }

  /** A run of word characters that starts `s` is no longer than `WordRun(s)`. */
  lemma WordRunCovers(s: string, m: string)
    requires AllWordChars(m) && m <= s
    ensures |m| <= WordRun(s)
  {
    var w := WordRun(s);
    if w < |m| {
      assert s[w] == m[w];
    }
  }

  lemma MatchAtFound(d: Delimiters, t: string)
    requires d.open <= t
    requires NameLength(t[|d.open|..], d.close, WordRun(t[|d.open|..])) > 0
    ensures MatchAt(d, t) == Some(t[|d.open|..][..NameLength(t[|d.open|..], d.close, WordRun(t[|d.open|..]))])
  {
  }

  /** One substitution site or one character copied as it is. */
  datatype Token = Literal(c: char) | Placeholder(name: string)

  /** One step of the scan at a non-empty `t`: the token found there and the length it spans. */
  function Step(d: Delimiters, t: string): (s: (Token, nat))
    requires t != []
    ensures 0 < s.1 <= |t|
  {
    match MatchAt(d, t)
    case Some(name) => (Placeholder(name), |d.open| + |name| + |d.close|)
    case None => (Literal(t[0]), 1)
  }

  /** The global scan: try a match at each position, resume after it, or copy one character. */
  function Tokenize(d: Delimiters, t: string): (tokens: seq<Token>)
    ensures tokens == [] <==> t == []
    decreases |t|
  {
    if t == [] then [] else [Step(d, t).0] + Tokenize(d, t[Step(d, t).1..])
  }

  /** Writes tokens back as text. */
  function Unparse(d: Delimiters, tokens: seq<Token>): string {
    if tokens == [] then []
    else
      (match tokens[0]
       case Literal(c) => [c]
       case Placeholder(name) => d.open + name + d.close)
      + Unparse(d, tokens[1..])
  }

  /** The scan loses nothing: text outside matches is kept and matches are whole placeholders. */
  lemma {:induction false} TokenizeRoundTrip(d: Delimiters, t: string)
    ensures Unparse(d, Tokenize(d, t)) == t
    decreases |t|
  {
    if t != [] {
      match MatchAt(d, t)
      case Some(name) =>
        TokenizeRoundTrip(d, t[|d.open| + |name| + |d.close|..]);
        PlaceholderRoundTrip(d, t, name);
      case None =>
        TokenizeRoundTrip(d, t[1..]);
        LiteralRoundTrip(d, t);
    }
  }

  lemma PlaceholderRoundTrip(d: Delimiters, t: string, name: string)
    requires t != [] && MatchAt(d, t) == Some(name)
    requires Unparse(d, Tokenize(d, t[|d.open| + |name| + |d.close|..])) == t[|d.open| + |name| + |d.close|..]
    ensures Unparse(d, Tokenize(d, t)) == t
  {
    var n := |d.open| + |name| + |d.close|;
    var rest := Tokenize(d, t[n..]);
    UnfoldPlaceholder(d, t, name);
    UnparseCons(d, Placeholder(name), rest);
    UnparsePlaceholder(d, name);
    PrefixSplit(d.open + name + d.close, t);
  }

  lemma UnparsePlaceholder(d: Delimiters, name: string)
    ensures Unparse(d, [Placeholder(name)]) == d.open + name + d.close
  {
    assert [Placeholder(name)][1..] == [];
  }

  lemma PrefixSplit(p: string, t: string)
    requires p <= t
    ensures t == p + t[|p|..]
  {
    assert t == t[..|p|] + t[|p|..];
  }

  lemma LiteralRoundTrip(d: Delimiters, t: string)
    requires t != [] && MatchAt(d, t).None?
    requires Unparse(d, Tokenize(d, t[1..])) == t[1..]
    ensures Unparse(d, Tokenize(d, t)) == t
  {
    UnfoldLiteral(d, t);
    UnparseCons(d, Literal(t[0]), Tokenize(d, t[1..]));
    assert t == [t[0]] + t[1..];
  }

  lemma UnparseCons(d: Delimiters, head: Token, tokens: seq<Token>)
    ensures Unparse(d, [head] + tokens) == Unparse(d, [head]) + Unparse(d, tokens)
  {
    assert ([head] + tokens)[1..] == tokens;
  }

  lemma UnfoldPlaceholder(d: Delimiters, t: string, name: string)
    requires t != [] && MatchAt(d, t) == Some(name)
    ensures Tokenize(d, t) == [Placeholder(name)] + Tokenize(d, t[|d.open| + |name| + |d.close|..])
  {
    StepAtMatch(d, t, name);
  }

  lemma StepAtMatch(d: Delimiters, t: string, name: string)
    requires t != [] && MatchAt(d, t) == Some(name)
    ensures Step(d, t) == (Placeholder(name), |d.open| + |name| + |d.close|)
  {
  }

  lemma UnfoldLiteral(d: Delimiters, t: string)
    requires t != [] && MatchAt(d, t).None?
    ensures Tokenize(d, t) == [Literal(t[0])] + Tokenize(d, t[1..])
  {
    StepAtLiteral(d, t);
  }

  lemma StepAtLiteral(d: Delimiters, t: string)
    requires t != [] && MatchAt(d, t).None?
    ensures Step(d, t) == (Literal(t[0]), 1)
  {
  }

  // ---------------------------------------------------------------------
  // Values and their rejection
  // ---------------------------------------------------------------------

  /** A template variable: a string or an (integral) number. */
  datatype Value = Str(s: string) | Num(n: int)

  /** `value.toString()`. */
  function ValueToString(v: Value): string {
    match v
    case Str(s) => s
    case Num(n) => IntToString(n)
  }

  /** JavaScript truthiness of a value: `''` and `0` are falsy. */
  predicate IsTruthy(v: Value) {
    match v
    case Str(s) => s != ""
    case Num(n) => n != 0
  }

  /** `typeof value === 'undefined'` rejects only a missing variable; `!value` rejects any falsy one. */
  datatype Rule = RejectUndefined | RejectFalsy

  predicate Accepts(rule: Rule, v: Option<Value>) {
    match rule
    case RejectUndefined => v.Some?
    case RejectFalsy => v.Some? && IsTruthy(v.value)
  }

  function Lookup(vars: map<string, Value>, name: string): Option<Value> {
    if name in vars then Some(vars[name]) else None
  }

  /** `Invalid template variable '<name>'`, thrown as a `TypeError` or as a plain `Error`. */
  datatype TemplateError = InvalidTemplateVariable(name: string, typeError: bool)

  function Rejection(rule: Rule, name: string): TemplateError {
    InvalidTemplateVariable(name, rule.RejectUndefined?)
  }

  /** Replaces the scanned tokens in order; the first rejected variable throws. */
  function Fill(rule: Rule, tokens: seq<Token>, vars: map<string, Value>): (r: Result<string, TemplateError>)
    ensures r.Failure? ==> !Accepts(rule, Lookup(vars, r.error.name))
    ensures r.Failure? ==> r.error.typeError == rule.RejectUndefined?
    decreases |tokens|
  {
    if tokens == [] then Success([])
    else
      match tokens[0]
      case Literal(c) =>
        (match Fill(rule, tokens[1..], vars)
         case Success(rest) => Success([c] + rest)
         case Failure(e) => Failure(e))
      case Placeholder(name) =>
        var v := Lookup(vars, name);
        if !Accepts(rule, v) then Failure(Rejection(rule, name))
        else
          match Fill(rule, tokens[1..], vars)
          case Success(rest) => Success(ValueToString(v.value) + rest)
          case Failure(e) => Failure(e)
  }

  /** `template.replaceAll(pattern, callback)`. */
  function Substitute(d: Delimiters, rule: Rule, template: string, vars: map<string, Value>): (r: Result<string, TemplateError>)
    ensures r.Failure? ==> !Accepts(rule, Lookup(vars, r.error.name))
    ensures r.Failure? ==> r.error.typeError == rule.RejectUndefined?
  {
    Fill(rule, Tokenize(d, template), vars)
  }

  /** Names whose variable the rule rejects. */
  predicate Rejected(rule: Rule, vars: map<string, Value>, token: Token) {
    token.Placeholder? && !Accepts(rule, Lookup(vars, token.name))
  }

  /**
   * Filling fails exactly when some placeholder is rejected, and then it
   * reports the first rejected one.
   */
  lemma {:induction false} FillFailsOnFirstRejected(rule: Rule, tokens: seq<Token>, vars: map<string, Value>)
    ensures Fill(rule, tokens, vars).Failure? <==> exists i :: 0 <= i < |tokens| && Rejected(rule, vars, tokens[i])
    ensures Fill(rule, tokens, vars).Failure? ==>
      exists i :: 0 <= i < |tokens| && Rejected(rule, vars, tokens[i]) &&
                  Fill(rule, tokens, vars).error == Rejection(rule, tokens[i].name) &&
                  forall j :: 0 <= j < i ==> !Rejected(rule, vars, tokens[j])
  {
    if tokens != [] {
      var tail := tokens[1..];
      FillFailsOnFirstRejected(rule, tail, vars);
      assert forall i :: 1 <= i < |tokens| ==> tokens[i] == tail[i - 1];
      if !Rejected(rule, vars, tokens[0]) && Fill(rule, tail, vars).Failure? {
        var i :| 0 <= i < |tail| && Rejected(rule, vars, tail[i]) &&
                 Fill(rule, tail, vars).error == Rejection(rule, tail[i].name) &&
                 forall j :: 0 <= j < i ==> !Rejected(rule, vars, tail[j]);
        assert Rejected(rule, vars, tokens[i + 1]);
      }
    }
  }

  predicate NamesAreWords(tokens: seq<Token>) {
    forall i :: 0 <= i < |tokens| && tokens[i].Placeholder? ==> |tokens[i].name| > 0 && AllWordChars(tokens[i].name)
  }

  /** Every name the scan captures is a non-empty run of word characters. */
  lemma {:induction false} TokenizeNames(d: Delimiters, t: string)
    ensures NamesAreWords(Tokenize(d, t))
    decreases |t|
  {
    if t != [] {
      match MatchAt(d, t) {
        case Some(name) =>
          var tail := t[|d.open| + |name| + |d.close|..];
          UnfoldPlaceholder(d, t, name);
          TokenizeNames(d, tail);
          NamesAreWordsCons(Placeholder(name), Tokenize(d, tail));
        case None =>
          UnfoldLiteral(d, t);
          TokenizeNames(d, t[1..]);
          NamesAreWordsCons(Literal(t[0]), Tokenize(d, t[1..]));
      }
    }
  }

  lemma NamesAreWordsCons(head: Token, tokens: seq<Token>)
    requires head.Placeholder? ==> |head.name| > 0 && AllWordChars(head.name)
    requires NamesAreWords(tokens)
    ensures NamesAreWords([head] + tokens)
  {
    var all := [head] + tokens;
    assert forall i :: 1 <= i < |all| ==> all[i] == tokens[i - 1];
  }

  /**
   * Replacing each placeholder by its own text gives back exactly the
   * written tokens: matches are replaced one for one, everything else is
   * copied, and nothing inserted is looked at again.
   */
  lemma {:induction false} FillWithOwnText(d: Delimiters, rule: Rule, tokens: seq<Token>, vars: map<string, Value>)
    requires forall i :: 0 <= i < |tokens| && tokens[i].Placeholder? ==>
      tokens[i].name != [] && Lookup(vars, tokens[i].name) == Some(Str(d.open + tokens[i].name + d.close))
    ensures Fill(rule, tokens, vars) == Success(Unparse(d, tokens))
  {
    if tokens != [] {
      var tail := tokens[1..];
      assert forall i :: 1 <= i < |tokens| ==> tokens[i] == tail[i - 1];
      FillWithOwnText(d, rule, tail, vars);
      if tokens[0].Placeholder? {
        var text := d.open + tokens[0].name + d.close;
        assert |text| > 0;
      }
    }
  }

  /** A template without any match is returned unchanged, whatever the variables. */
  lemma TemplateWithoutPlaceholders(d: Delimiters, rule: Rule, template: string, vars: map<string, Value>)
    requires forall i :: 0 <= i < |Tokenize(d, template)| ==> Tokenize(d, template)[i].Literal?
    ensures Substitute(d, rule, template, vars) == Success(template)
  {
    FillWithOwnText(d, rule, Tokenize(d, template), vars);
    TokenizeRoundTrip(d, template);
  }

  /** Variables that hold their own placeholder text leave the template as it is. */
  lemma SubstituteWithOwnText(d: Delimiters, rule: Rule, template: string, vars: map<string, Value>)
    requires forall name :: name in vars ==> vars[name] == Str(d.open + name + d.close)
    requires forall i :: 0 <= i < |Tokenize(d, template)| && Tokenize(d, template)[i].Placeholder? ==>
      Tokenize(d, template)[i].name in vars
    ensures Substitute(d, rule, template, vars) == Success(template)
  {
    var tokens := Tokenize(d, template);
    TokenizeNames(d, template);
    assert forall i :: 0 <= i < |tokens| && tokens[i].Placeholder? ==> tokens[i].name != [];
    FillWithOwnText(d, rule, tokens, vars);
    TokenizeRoundTrip(d, template);
  }

  /** The substitution fails exactly when a placeholder of the template names a rejected variable. */
  lemma SubstituteFailsIffRejected(d: Delimiters, rule: Rule, template: string, vars: map<string, Value>)
    ensures Substitute(d, rule, template, vars).Failure? <==>
      exists i :: 0 <= i < |Tokenize(d, template)| && Rejected(rule, vars, Tokenize(d, template)[i])
    ensures Substitute(d, rule, template, vars).Failure? ==>
      Substitute(d, rule, template, vars).error.typeError == rule.RejectUndefined?
  {
    var tokens := Tokenize(d, template);
    FillFailsOnFirstRejected(rule, tokens, vars);
    assert Substitute(d, rule, template, vars) == Fill(rule, tokens, vars);
  }

  /** A record of string values. */
  function StringValues(variables: map<string, string>): (vars: map<string, Value>)
    ensures vars.Keys == variables.Keys
    ensures forall k :: k in variables ==> vars[k] == Str(variables[k])
  {
    map k | k in variables :: Str(variables[k])
  }

  /** An entry written as `String(n)`, possibly with more text after it, reads back as `n`. */
  lemma NumeralEntry(variables: map<string, string>, key: string, n: int, rest: string)
    requires key in variables && variables[key] == IntToString(n) + rest
    requires rest == [] || !IsDigit(rest[0])
    ensures ParseInt(variables[key]) == Some(n)
  {
    ParseIntOfIntToString(n, rest);
  }

  /** A placeholder whose string variable is missing or empty. */
  predicate MissingOrEmpty(variables: map<string, string>, token: Token) {
    token.Placeholder? && (token.name !in variables || variables[token.name] == "")
  }

  /** With string values, `!value` rejects exactly the missing and the empty ones. */
  lemma FalsyStringsRejected(d: Delimiters, template: string, variables: map<string, string>)
    ensures Substitute(d, RejectFalsy, template, StringValues(variables)).Failure? <==>
      exists i :: 0 <= i < |Tokenize(d, template)| && MissingOrEmpty(variables, Tokenize(d, template)[i])
  {
    var vars := StringValues(variables);
    var tokens := Tokenize(d, template);
    SubstituteFailsIffRejected(d, RejectFalsy, template, vars);
    forall i | 0 <= i < |tokens|
      ensures Rejected(RejectFalsy, vars, tokens[i]) == MissingOrEmpty(variables, tokens[i])
    {
    }
  }

  // ---------------------------------------------------------------------
  // Reading the template and writing the result
  // ---------------------------------------------------------------------

  /** The files the run reads and writes, keyed by path. */
  type FileSystem = map<string, string>

  datatype CompileError = ReadFailed(path: string) | Invalid(error: TemplateError)

  /** The file system after a run, and the error it threw, if any. */
  datatype Run = Run(files: FileSystem, error: Option<CompileError>)

  /** `path.join(a, b)` for a relative directory and a file name. */
  function PathJoin(a: string, b: string): string {
    a + "/" + b
  }

  /**
   * Reads `templatePath`, substitutes, and writes `outputPath`; a missing
   * template or a rejected variable throws before anything is written.
   */
  function Process(files: FileSystem, d: Delimiters, rule: Rule, templatePath: string, outputPath: string,
                   vars: map<string, Value>): (r: Run)
    ensures templatePath !in files ==> r == Run(files, Some(ReadFailed(templatePath)))
    ensures r.error.Some? ==> r.files == files
    ensures r.error.None? <==> templatePath in files && Substitute(d, rule, files[templatePath], vars).Success?
    ensures r.error.None? ==> r.files == files[outputPath := Substitute(d, rule, files[templatePath], vars).value]
  {
    if templatePath !in files then Run(files, Some(ReadFailed(templatePath)))
    else
      match Substitute(d, rule, files[templatePath], vars)
      case Failure(e) => Run(files, Some(Invalid(e)))
      case Success(text) => Run(files[outputPath := text], None)
  }

  /** `compileTemplate(templateName, fileName, variables, outputPath)` of src/libs/template.ts. */
  function CompileTemplate(files: FileSystem, templateName: string, fileName: string,
                           variables: map<string, Value>, outputPath: string): (r: Run)
    ensures r.error.None? <==>
      PathJoin("templates", templateName) in files &&
      forall i :: 0 <= i < |Tokenize(Underscores, files[PathJoin("templates", templateName)])| &&
                  Tokenize(Underscores, files[PathJoin("templates", templateName)])[i].Placeholder? ==>
                    Tokenize(Underscores, files[PathJoin("templates", templateName)])[i].name in variables
    ensures r.error.Some? ==> r.files == files
    ensures r.error.Some? && r.error.value.Invalid? ==> r.error.value.error.typeError
    ensures r.error.None? ==> Substitute(Underscores, RejectUndefined, files[PathJoin("templates", templateName)], variables).Success?
    ensures r.error.None? ==>
      r.files == files[PathJoin(outputPath, fileName) :=
                       Substitute(Underscores, RejectUndefined, files[PathJoin("templates", templateName)], variables).value]
  {
    var path := PathJoin("templates", templateName);
    if path in files then
      SubstituteFailsIffRejected(Underscores, RejectUndefined, files[path], variables);
      Process(files, Underscores, RejectUndefined, path, PathJoin(outputPath, fileName), variables)
    else
      Process(files, Underscores, RejectUndefined, path, PathJoin(outputPath, fileName), variables)
  }

  // ---------------------------------------------------------------------
  // Worked cases of the scan and the rules
  // ---------------------------------------------------------------------

  /** `_` is a word character, so `__A____B__` captures `A____B`. */
  lemma UnderscoresInsideName()
    ensures Tokenize(Underscores, "__A____B__") == [Placeholder("A____B")]
  {
    var t := "__A____B__";
    UnderscoresMatch();
    assert t[10..] == [];
  }

  /** The greedy run takes `A____B__` and backs off to the last `__` that closes it. */
  lemma UnderscoresMatch()
    ensures MatchAt(Underscores, "__A____B__") == Some("A____B")
  {
    var t := "__A____B__";
    assert Underscores.open == "__" && Underscores.close == "__";
    var rest := t[2..];
    assert rest == "A____B__";
    UnderscoresWordRun();
    assert "__" <= rest[6..];
    assert NameLength(rest, "__", 6) == 6;
    assert !("__" <= rest[7..]);
    assert NameLength(rest, "__", 7) == 6;
    assert !("__" <= rest[8..]);
    assert NameLength(rest, "__", 8) == 6;
    assert Underscores.open <= t && rest[..6] == "A____B";
  }

  /** Every character of `A____B__` is a word character. */
  lemma UnderscoresWordRun()
    ensures WordRun("A____B__") == 8
  {
    var rest := "A____B__";
    assert WordRun(rest[8..]) == 0;
    assert WordRun(rest[4..]) == 4;
  }

  /** A third leading underscore belongs to the name: `___X__` captures `_X`. */
  lemma LeadingUnderscoreInName()
    ensures Tokenize(Underscores, "___X__") == [Placeholder("_X")]
  {
    var t := "___X__";
    var rest := t[2..];
    assert WordRun(rest) == 4;
    assert NameLength(rest, "__", 4) == 2;
    assert Underscores.open <= t && rest[..2] == "_X";
    assert MatchAt(Underscores, t) == Some("_X");
    assert t[6..] == [];
  }

  /** A value that looks like a placeholder is inserted as it is, not scanned again. */
  lemma ValuesAreNotRescanned()
    ensures Substitute(Underscores, RejectFalsy, "__A__", map["A" := Str("__B__")]) == Success("__B__")
  {
    var t := "__A__";
    var rest := t[2..];
    assert WordRun(rest) == 3;
    assert NameLength(rest, "__", 3) == 1;
    assert Underscores.open <= t && rest[..1] == [t[2]];
    assert MatchAt(Underscores, t) == Some("A");
    assert t[5..] == [];
    assert Tokenize(Underscores, t) == [Placeholder("A")];
    var vars := map["A" := Str("__B__")];
    var tokens := [Placeholder("A")];
    assert tokens[1..] == [];
    assert Lookup(vars, "A") == Some(Str("__B__"));
    assert Fill(RejectFalsy, tokens[1..], vars) == Success([]);
    assert Accepts(RejectFalsy, Lookup(vars, tokens[0].name));
    assert ValueToString(Str("__B__")) + [] == "__B__";
    assert Fill(RejectFalsy, tokens, vars) == Success("__B__");
  }

  /** `typeof value === 'undefined'` accepts a defined `0`; `!value` rejects it. */
  lemma FalsyZeroByRule()
    ensures Substitute(Underscores, RejectUndefined, "__N__", map["N" := Num(0)]) == Success("0")
    ensures Substitute(Underscores, RejectFalsy, "__N__", map["N" := Num(0)]) == Failure(InvalidTemplateVariable("N", false))
  {
    var t := "__N__";
    var rest := t[2..];
    assert WordRun(rest) == 3;
    assert NameLength(rest, "__", 3) == 1;
    assert Underscores.open <= t && rest[..1] == [t[2]];
    assert MatchAt(Underscores, t) == Some("N");
    assert t[5..] == [];
    assert Tokenize(Underscores, t) == [Placeholder("N")];
    var vars := map["N" := Num(0)];
    var tokens := [Placeholder("N")];
    assert tokens[1..] == [];
    assert Lookup(vars, "N") == Some(Num(0));
    assert Fill(RejectUndefined, tokens[1..], vars) == Success([]);
    assert ValueToString(Num(0)) == "0";
    assert Accepts(RejectUndefined, Lookup(vars, tokens[0].name));
    assert ValueToString(Num(0)) + [] == "0";
    assert Fill(RejectUndefined, tokens, vars) == Success("0");
  }
}
