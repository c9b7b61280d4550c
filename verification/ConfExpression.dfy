/** Environment expressions in configuration values: $VAR, ${VAR}, ${VAR:-word}, ${VAR:+word},
    \$ and nesting. The scanners and the expander work on text; Piece is the syntax tree a
    writer of configuration has in mind, Print its text and Value its meaning. */
module ConfExpression {
  import opened Common

  const MAX_DEPTH := 32

  /** The environment: unset variables read as empty. Names reach it as C strings. */
  type Environment = string -> string

  function {:tailrecursion false} CString(name: string): string {
    if name == "" || name[0] == '\0' then "" else [name[0]] + CString(name[1..])
  }

  function Lookup(env: Environment, name: string): string {
    env(CString(name))
  }

  predicate IsNameChar(c: char) {
    'A' <= c <= 'Z' || 'a' <= c <= 'z' || '0' <= c <= '9' || c == '_'
  }

  // ---------------------------------------------------------------- scanners

  /** Position of the '}' that closes depth open braces, scanning from i. */
  function {:tailrecursion false} CloseBrace(s: string, i: nat, depth: nat): (r: Option<nat>)
    requires i <= |s| && depth > 0
    ensures r.Some? ==> i <= r.value < |s| && s[r.value] == '}'
    decreases |s| - i
  {
    if i == |s| then None
    else if s[i] == '\\' && i + 1 < |s| then CloseBrace(s, i + 2, depth)
    else if s[i] == '$' && i + 1 < |s| && s[i + 1] == '{' then CloseBrace(s, i + 2, depth + 1)
    else if s[i] == '}' then (if depth == 1 then Some(i) else CloseBrace(s, i + 1, depth - 1))
    else CloseBrace(s, i + 1, depth)
  }

  predicate OperatorAt(s: string, i: nat) {
    i + 1 < |s| && s[i] == ':' && (s[i + 1] == '-' || s[i + 1] == '+')
  }

  /** Position of the first ":-" or ":+" outside nested braces, scanning from i. */
  function {:tailrecursion false} TopOperator(s: string, i: nat, depth: nat): (r: Option<nat>)
    requires i <= |s|
    ensures r.Some? ==> i <= r.value && OperatorAt(s, r.value)
    decreases |s| - i
  {
    if i == |s| then None
    else if s[i] == '\\' && i + 1 < |s| then TopOperator(s, i + 2, depth)
    else if s[i] == '$' && i + 1 < |s| && s[i + 1] == '{' then TopOperator(s, i + 2, depth + 1)
    else if s[i] == '}' then TopOperator(s, i + 1, if depth > 0 then depth - 1 else 0)
    else if depth == 0 && OperatorAt(s, i) then Some(i)
    else TopOperator(s, i + 1, depth)
  }

  function {:tailrecursion false} NameEnd(s: string, i: nat): (end: nat)
    requires i <= |s|
    ensures i <= end <= |s|
    ensures forall k :: i <= k < end ==> IsNameChar(s[k])
    ensures end < |s| ==> !IsNameChar(s[end])
    decreases |s| - i
  {
    if i == |s| || !IsNameChar(s[i]) then i else NameEnd(s, i + 1)
  }

  /** input from start on is the text after "${". */
  method FindMatchingCloseBrace(input: string, start: nat) returns (r: Option<nat>)
    requires start <= |input|
    ensures r == CloseBrace(input, start, 1)
  {
    var depth: nat, i := 1, start;
    while i < |input|
      invariant start <= i <= |input| && depth > 0
      invariant CloseBrace(input, start, 1) == CloseBrace(input, i, depth)
    {
      if input[i] == '\\' && i + 1 < |input| {
        i := i + 2;
        continue;
      }
      if input[i] == '$' && i + 1 < |input| && input[i + 1] == '{' {
        depth := depth + 1;
        i := i + 2;
        continue;
      }
      if input[i] == '}' {
        if depth == 1 {
          return Some(i);
        }
        depth := depth - 1;
      }
      i := i + 1;
    }
    return None;
  }

  method FindTopLevelOperator(content: string) returns (r: Option<nat>)
    ensures r == TopOperator(content, 0, 0)
  {
    var depth: nat, i := 0, 0;
    while i < |content|
      invariant 0 <= i <= |content|
      invariant TopOperator(content, 0, 0) == TopOperator(content, i, depth)
    {
      if content[i] == '\\' && i + 1 < |content| {
        i := i + 2;
        continue;
      }
      if content[i] == '$' && i + 1 < |content| && content[i + 1] == '{' {
        depth := depth + 1;
        i := i + 2;
        continue;
      }
      if content[i] == '}' {
        if depth > 0 {
          depth := depth - 1;
        }
        i := i + 1;
        continue;
      }
      if depth == 0 && content[i] == ':' && i + 1 < |content| {
        if content[i + 1] == '-' || content[i + 1] == '+' {
          return Some(i);
        }
      }
      i := i + 1;
    }
    return None;
  }

  method FindNameEnd(input: string, start: nat) returns (end: nat)
    requires start <= |input|
    ensures end == NameEnd(input, start)
  {
    end := start;
    while end < |input| && IsNameChar(input[end])
      invariant start <= end <= |input|
      invariant NameEnd(input, start) == NameEnd(input, end)
    {
      end := end + 1;
    }
  }

  // ---------------------------------------------------------------- expander

  function Expand(s: string, depth: nat, env: Environment): string
    decreases |s|, 2
  {
    if depth > MAX_DEPTH then s else Scan(s, 0, depth, env)
  }

  /** The value of the content between "${" and "}". */
  function ExpandBraced(content: string, depth: nat, env: Environment): string
    decreases |content|, 3
  {
    var op := TopOperator(content, 0, 0);
    if op.None? then Lookup(env, Expand(content, depth + 1, env))
    else
      var v := Lookup(env, Expand(content[..op.value], depth + 1, env));
      if content[op.value + 1] == '-' then (if v == "" then Expand(content[op.value + 2..], depth + 1, env) else v)
      else (if v != "" then Expand(content[op.value + 2..], depth + 1, env) else "")
  }

  /** What stands at position i: its expansion and the position after it. */
  function Token(s: string, i: nat, depth: nat, env: Environment): (r: (string, nat))
    requires i < |s|
    ensures i < r.1 <= |s|
    decreases |s| - i, 0
  {
    if s[i] == '\\' && i + 1 < |s| && s[i + 1] == '$' then ("$", i + 2)
    else if s[i] == '$' && i + 1 < |s| && s[i + 1] == '{' then
      var close := CloseBrace(s, i + 2, 1);
      if close.None? then ("${", i + 2)
      else (ExpandBraced(s[i + 2..close.value], depth, env), close.value + 1)
    else if s[i] == '$' && i + 1 < |s| && IsNameChar(s[i + 1]) then
      (Lookup(env, s[i + 1..NameEnd(s, i + 1)]), NameEnd(s, i + 1))
    else ([s[i]], i + 1)
  }

  /** The expansion of s from position i on. */
  function {:tailrecursion false} Scan(s: string, i: nat, depth: nat, env: Environment): string
    requires i <= |s|
    decreases |s| - i, 1
  {
    if i == |s| then ""
    else var t := Token(s, i, depth, env); t.0 + Scan(s, t.1, depth, env)
  }

  method ExpandBracedImpl(content: string, depth: nat, env: Environment) returns (result: string)
    ensures result == ExpandBraced(content, depth, env)
    decreases |content|, 2
  {
    var op := FindTopLevelOperator(content);
    if op.Some? {
      var name := ExpandExpressionImpl(content[..op.value], depth + 1, env);
      var value := Lookup(env, name);
      result := "";
      if content[op.value + 1] == '-' {
        if value == "" {
          result := ExpandExpressionImpl(content[op.value + 2..], depth + 1, env);
        } else {
          result := value;
        }
      } else if value != "" {
        result := ExpandExpressionImpl(content[op.value + 2..], depth + 1, env);
      }
    } else {
      var name := ExpandExpressionImpl(content, depth + 1, env);
      result := Lookup(env, name);
    }
  }

  method ReadToken(input: string, i: nat, depth: nat, env: Environment) returns (text: string, next: nat)
    requires i < |input|
    ensures (text, next) == Token(input, i, depth, env)
    decreases |input| - i, 0
  {
    var c := input[i];
    if c == '\\' && i + 1 < |input| && input[i + 1] == '$' {
      return "$", i + 2;
    }
    if c == '$' {
      if i + 1 >= |input| {
        return "$", i + 1;
      }
      if input[i + 1] == '{' {
        var close := FindMatchingCloseBrace(input, i + 2);
        if close.None? {
          return "${", i + 2;
        }
        text := ExpandBracedImpl(input[i + 2..close.value], depth, env);
        return text, close.value + 1;
      }
      if IsNameChar(input[i + 1]) {
        next := FindNameEnd(input, i + 1);
        return Lookup(env, input[i + 1..next]), next;
      }
      return "$", i + 1;
    }
    return [c], i + 1;
  }

  method ExpandExpressionImpl(input: string, depth: nat, env: Environment) returns (result: string)
    ensures result == Expand(input, depth, env)
    decreases |input|, 1
  {
    if depth > MAX_DEPTH {
      return input;
    }
    result := "";
    var i := 0;
    while i < |input|
      invariant 0 <= i <= |input|
      invariant Scan(input, 0, depth, env) == result + Scan(input, i, depth, env)
    {
      var text, next := ReadToken(input, i, depth, env);
      result, i := result + text, next;
    }
  }

  // ---------------------------------------------------------------- syntax trees

  /** A character stands for itself; Esc(c) is a backslash before c; Dollar is a '$' that starts
      nothing; Braced is ${name}; Choice is ${name:+word} when plus and ${name:-word} otherwise. */
  datatype Piece =
    | Ch(c: char)
    | Esc(c: char)
    | Dollar
    | Bare(id: string)
    | Braced(name: seq<Piece>)
    | Choice(name: seq<Piece>, plus: bool, word: seq<Piece>)

  function OpText(plus: bool): string {
    if plus then ":+" else ":-"
  }

  function PrintOne(p: Piece): (r: string)
    ensures |r| > 0
    decreases p, 1
  {
    match p
    case Ch(c) => [c]
    case Esc(c) => ['\\', c]
    case Dollar => "$"
    case Bare(id) => "$" + id
    case Braced(name) => "${" + Print(name) + "}"
    case Choice(name, plus, word) => "${" + Print(name) + OpText(plus) + Print(word) + "}"
  }

  function Print(ps: seq<Piece>): string
    decreases ps, 0
  {
    if ps == [] then "" else PrintOne(ps[0]) + Print(ps[1..])
  }

  /** The meaning of an expression, by section 2.6.2 of the POSIX Shell Command Language for the
      two operators. A value taken from the environment is used as it is. */
  function ValueOne(p: Piece, env: Environment): string
    decreases p, 1
  {
    match p
    case Ch(c) => [c]
    case Esc(c) => if c == '$' then "$" else ['\\', c]
    case Dollar => "$"
    case Bare(id) => Lookup(env, id)
    case Braced(name) => Lookup(env, Value(name, env))
    case Choice(name, plus, word) =>
      var v := Lookup(env, Value(name, env));
      if plus then (if v == "" then "" else Value(word, env)) else (if v == "" then Value(word, env) else v)
  }

  function Value(ps: seq<Piece>, env: Environment): string
    decreases ps, 0
  {
    if ps == [] then "" else ValueOne(ps[0], env) + Value(ps[1..], env)
  }

  // ---------------------------------------------------------------- well-formed trees

  predicate IsName(s: string) {
    |s| > 0 && forall k :: 0 <= k < |s| ==> IsNameChar(s[k])
  }

  /** No ':' directly before a '-' or a '+'. */
  predicate NoOperator(ps: seq<Piece>) {
    forall i :: 0 <= i < |ps| - 1 && ps[i] == Ch(':') ==> ps[i + 1] != Ch('-') && ps[i + 1] != Ch('+')
  }

  /** p may stand before q: neither a bare name nor a lone '$' swallows what follows. */
  predicate Apart(p: Piece, q: Piece) {
    && (p.Bare? && q.Ch? ==> !IsNameChar(q.c))
    && (p.Dollar? && q.Ch? ==> !IsNameChar(q.c) && q.c != '{')
  }

  predicate OkOne(p: Piece, inside: bool)
    decreases p, 1
  {
    match p
    case Ch(c) => c != '$' && c != '\\' && (inside ==> c != '}')
    case Esc(c) => c != '\\'
    case Dollar => true
    case Bare(id) => IsName(id)
    case Braced(name) => Ok(name, true) && NoOperator(name)
    case Choice(name, _, word) => Ok(name, true) && NoOperator(name) && Ok(word, true)
  }

  predicate Ok(ps: seq<Piece>, inside: bool)
    decreases ps, 0
  {
    ps == [] || (OkOne(ps[0], inside) && (|ps| > 1 ==> Apart(ps[0], ps[1])) && Ok(ps[1..], inside))
  }

  /** Text that means itself, expanded or not. */
  predicate Plain(p: Piece) {
    p.Ch? || p.Dollar? || (p.Esc? && p.c != '$')
  }

  /** Everything nested too deep to be expanded is plain. */
  predicate FitsOne(p: Piece, depth: nat)
    decreases p, 1
  {
    if depth > MAX_DEPTH then Plain(p)
    else match p
      case Braced(name) => Fits(name, depth + 1)
      case Choice(name, _, word) => Fits(name, depth + 1) && Fits(word, depth + 1)
      case _ => true
  }

  predicate Fits(ps: seq<Piece>, depth: nat)
    decreases ps, 0
  {
    ps == [] || (FitsOne(ps[0], depth) && Fits(ps[1..], depth))
  }

  // ---------------------------------------------------------------- text at a position

  /** The character that follows at j, if any, does not open a brace. */
  predicate NoBraceAt(s: string, j: nat) {
    j < |s| ==> s[j] != '{'
  }

  /** The text of the second piece does not run into the first one. */
  lemma FollowedApart(s: string, j: nat, ps: seq<Piece>, inside: bool)
    requires Ok(ps, inside) && |ps| > 1 && At(s, j, Print(ps[1..]))
    ensures j < |s|
    ensures ps[0].Dollar? ==> s[j] != '{' && !IsNameChar(s[j])
    ensures ps[0].Bare? ==> !IsNameChar(s[j])
    ensures s[j] == '-' ==> ps[1] == Ch('-')
    ensures s[j] == '+' ==> ps[1] == Ch('+')
  {
    var rest := ps[1..];
    assert rest[0] == ps[1];
    assert Print(rest)[0] == PrintOne(rest[0])[0];
    assert s[j + 0] == Print(rest)[0];
    FirstChar(rest[0], inside);
  }

  lemma FirstChar(p: Piece, inside: bool)
    requires OkOne(p, inside)
    ensures p.Ch? || PrintOne(p)[0] == '\\' || PrintOne(p)[0] == '$'
    ensures p.Ch? ==> PrintOne(p) == [p.c]
  {
  }

  lemma AtBraced(s: string, i: nat, name: string)
    requires At(s, i, "${" + name + "}")
    ensures i + 2 + |name| < |s| && s[i] == '$' && s[i + 1] == '{' && s[i + 2 + |name|] == '}'
    ensures At(s, i + 2, name)
  {
    AtSplit(s, i, "${" + name, "}");
    AtSplit(s, i, "${", name);
    assert s[i + 0] == "${"[0] && s[i + 1] == "${"[1];
    assert s[i + 2 + |name| + 0] == "}"[0];
  }

  lemma AtOperator(s: string, i: nat, name: string, op: string, word: string)
    requires |op| == 2 && At(s, i, "${" + name + op + word + "}")
    ensures var k := i + 2 + |name|;
      && k + 2 + |word| < |s| && s[i] == '$' && s[i + 1] == '{' && s[k] == op[0] && s[k + 1] == op[1]
      && s[k + 2 + |word|] == '}' && At(s, i + 2, name) && At(s, k + 2, word)
  {
    var k := i + 2 + |name|;
    assert "${" + name + op + word + "}" == "${" + (name + op + word) + "}";
    AtBraced(s, i, name + op + word);
    AtSplit(s, i + 2, name + op, word);
    AtSplit(s, i + 2, name, op);
    assert s[k + 0] == op[0] && s[k + 1] == op[1];
  }

  // ---------------------------------------------------------------- brace scanner on printed text

  lemma {:induction false} CloseSkipsName(s: string, i: nat, name: string, depth: nat)
    requires At(s, i, name) && depth > 0 && forall k :: 0 <= k < |name| ==> IsNameChar(name[k])
    ensures CloseBrace(s, i, depth) == CloseBrace(s, i + |name|, depth)
    decreases |name|
  {
    if name != "" {
      AtSplit(s, i, name[..1], name[1..]) by {
        assert name == name[..1] + name[1..];
      }
      assert s[i + 0] == name[0];
      CloseSkipsName(s, i + 1, name[1..], depth);
    }
  }

  lemma {:induction false} CloseSkipsOne(s: string, i: nat, p: Piece, depth: nat)
    requires OkOne(p, true) && depth > 0 && At(s, i, PrintOne(p))
    requires p.Dollar? ==> NoBraceAt(s, i + 1)
    ensures CloseBrace(s, i, depth) == CloseBrace(s, i + |PrintOne(p)|, depth)
    decreases p, 1
  {
    var t := PrintOne(p);
    assert s[i + 0] == t[0];
    match p
    case Ch(c) =>
    case Esc(c) => assert s[i + 1] == t[1];
    case Dollar =>
    case Bare(id) =>
      AtSplit(s, i, "$", id);
      assert s[i + 1 + 0] == id[0];
      CloseSkipsName(s, i + 1, id, depth);
    case Braced(name) =>
      AtBraced(s, i, Print(name));
      CloseSkips(s, i + 2, name, depth + 1);
    case Choice(_, _, _) => CloseSkipsChoice(s, i, p, depth + 1);
  }

  lemma CloseSkipsOperator(s: string, k: nat, depth: nat)
    requires OperatorAt(s, k) && depth > 0
    ensures CloseBrace(s, k, depth) == CloseBrace(s, k + 2, depth)
  {
  }

  /** From inside ${name:-word} up to its closing brace. */
  lemma {:induction false} CloseSkipsChoice(s: string, i: nat, p: Piece, depth: nat)
    requires p.Choice? && OkOne(p, true) && depth > 0 && At(s, i, PrintOne(p))
    ensures i + |PrintOne(p)| <= |s| && s[i] == '$' && s[i + 1] == '{' && s[i + |PrintOne(p)| - 1] == '}'
    ensures CloseBrace(s, i + 2, depth) == CloseBrace(s, i + |PrintOne(p)| - 1, depth)
    decreases p, 0
  {
    AtOperator(s, i, Print(p.name), OpText(p.plus), Print(p.word));
    var k := i + 2 + |Print(p.name)|;
    CloseSkips(s, i + 2, p.name, depth);
    CloseSkipsOperator(s, k, depth);
    CloseSkips(s, k + 2, p.word, depth);
  }

  lemma {:induction false} CloseSkips(s: string, i: nat, ps: seq<Piece>, depth: nat)
    requires Ok(ps, true) && depth > 0 && At(s, i, Print(ps)) && NoBraceAt(s, i + |Print(ps)|)
    ensures CloseBrace(s, i, depth) == CloseBrace(s, i + |Print(ps)|, depth)
    decreases ps, 0
  {
    if ps != [] {
      AtSplit(s, i, PrintOne(ps[0]), Print(ps[1..]));
      var j := i + |PrintOne(ps[0])|;
      if |ps| > 1 {
        FollowedApart(s, j, ps, true);
      }
      CloseSkipsOne(s, i, ps[0], depth);
      CloseSkips(s, j, ps[1..], depth);
    }
  }

  /** The matching brace of a printed ${...} is the one that was printed. */
  lemma CloseFindsBrace(s: string, i: nat, p: Piece)
    requires (p.Braced? || p.Choice?) && OkOne(p, true) && At(s, i, PrintOne(p))
    ensures i + |PrintOne(p)| <= |s| && i + 2 <= |s|
    ensures CloseBrace(s, i + 2, 1) == Some(i + |PrintOne(p)| - 1)
  {
    match p
    case Braced(name) =>
      AtBraced(s, i, Print(name));
      CloseSkips(s, i + 2, name, 1);
    case Choice(_, _, _) => CloseSkipsChoice(s, i, p, 1);
    case _ =>
  }

  // ---------------------------------------------------------------- operator scanner on printed text

  lemma {:induction false} TopSkipsName(s: string, i: nat, name: string, depth: nat)
    requires At(s, i, name) && forall k :: 0 <= k < |name| ==> IsNameChar(name[k])
    ensures TopOperator(s, i, depth) == TopOperator(s, i + |name|, depth)
    decreases |name|
  {
    if name != "" {
      AtSplit(s, i, name[..1], name[1..]) by {
        assert name == name[..1] + name[1..];
      }
      assert s[i + 0] == name[0];
      TopSkipsName(s, i + 1, name[1..], depth);
    }
  }

  lemma {:induction false} TopSkipsOne(s: string, i: nat, p: Piece, depth: nat)
    requires OkOne(p, true) && At(s, i, PrintOne(p))
    requires p.Dollar? ==> NoBraceAt(s, i + 1)
    requires depth == 0 ==> !OperatorAt(s, i)
    ensures TopOperator(s, i, depth) == TopOperator(s, i + |PrintOne(p)|, depth)
    decreases p, 1
  {
    var t := PrintOne(p);
    assert s[i + 0] == t[0];
    match p
    case Ch(c) =>
    case Esc(c) => assert s[i + 1] == t[1];
    case Dollar =>
    case Bare(id) =>
      AtSplit(s, i, "$", id);
      assert s[i + 1 + 0] == id[0];
      TopSkipsName(s, i + 1, id, depth);
    case Braced(name) =>
      AtBraced(s, i, Print(name));
      TopSkips(s, i + 2, name, depth + 1);
    case Choice(_, _, _) => TopSkipsChoice(s, i, p, depth + 1);
  }

  lemma TopSkipsNested(s: string, k: nat, depth: nat)
    requires OperatorAt(s, k) && depth > 0
    ensures TopOperator(s, k, depth) == TopOperator(s, k + 2, depth)
  {
  }

  lemma {:induction false} TopSkipsChoice(s: string, i: nat, p: Piece, depth: nat)
    requires p.Choice? && OkOne(p, true) && depth > 0 && At(s, i, PrintOne(p))
    ensures i + |PrintOne(p)| <= |s| && s[i] == '$' && s[i + 1] == '{' && s[i + |PrintOne(p)| - 1] == '}'
    ensures TopOperator(s, i + 2, depth) == TopOperator(s, i + |PrintOne(p)| - 1, depth)
    decreases p, 0
  {
    AtOperator(s, i, Print(p.name), OpText(p.plus), Print(p.word));
    var k := i + 2 + |Print(p.name)|;
    TopSkips(s, i + 2, p.name, depth);
    TopSkipsNested(s, k, depth);
    TopSkips(s, k + 2, p.word, depth);
  }

  /** A printed name hides no operator: the scanner runs over it. What follows at the end, if
      anything, must not complete an operator or open a brace. */
  lemma {:induction false} TopSkips(s: string, i: nat, ps: seq<Piece>, depth: nat)
    requires Ok(ps, true) && At(s, i, Print(ps)) && NoBraceAt(s, i + |Print(ps)|)
    requires depth == 0 ==> NoOperator(ps)
    requires depth == 0 && i + |Print(ps)| < |s| ==> s[i + |Print(ps)|] != '-' && s[i + |Print(ps)|] != '+'
    ensures TopOperator(s, i, depth) == TopOperator(s, i + |Print(ps)|, depth)
    decreases ps, 0
  {
    if ps != [] {
      AtSplit(s, i, PrintOne(ps[0]), Print(ps[1..]));
      var j := i + |PrintOne(ps[0])|;
      if |ps| > 1 {
        FollowedApart(s, j, ps, true);
      }
      NoOperatorFirst(s, i, ps, depth);
      TopSkipsOne(s, i, ps[0], depth);
      TopSkips(s, j, ps[1..], depth);
    }
  }

  lemma NoOperatorFirst(s: string, i: nat, ps: seq<Piece>, depth: nat)
    requires ps != [] && Ok(ps, true) && At(s, i, Print(ps))
    requires depth == 0 ==> NoOperator(ps)
    requires depth == 0 && i + |Print(ps)| < |s| ==> s[i + |Print(ps)|] != '-' && s[i + |Print(ps)|] != '+'
    ensures depth == 0 ==> !OperatorAt(s, i) && NoOperator(ps[1..])
  {
    if depth == 0 {
      AtSplit(s, i, PrintOne(ps[0]), Print(ps[1..]));
      assert s[i + 0] == PrintOne(ps[0])[0];
      FirstChar(ps[0], true);
      if |ps| > 1 {
        FollowedApart(s, i + |PrintOne(ps[0])|, ps, true);
      }
      forall k | 0 <= k < |ps[1..]| - 1 && ps[1..][k] == Ch(':')
        ensures ps[1..][k + 1] != Ch('-') && ps[1..][k + 1] != Ch('+')
      {
        assert ps[1..][k] == ps[k + 1] && ps[1..][k + 1] == ps[k + 1 + 1];
      }
    }
  }

  // ---------------------------------------------------------------- expanding printed text

  lemma {:induction false} PlainIsItself(ps: seq<Piece>, depth: nat, env: Environment)
    requires Fits(ps, depth) && depth > MAX_DEPTH
    ensures Print(ps) == Value(ps, env)
    decreases |ps|
  {
    if ps != [] {
      PlainIsItself(ps[1..], depth, env);
    }
  }

  lemma {:induction false} BracedNameValue(p: Piece, depth: nat, env: Environment)
    requires p.Braced? && OkOne(p, true) && FitsOne(p, depth) && depth <= MAX_DEPTH
    ensures ExpandBraced(Print(p.name), depth, env) == ValueOne(p, env)
    decreases p, 0
  {
    TopSkips(Print(p.name), 0, p.name, 0);
    ExpandPrint(p.name, true, depth + 1, env);
  }

  lemma ChoiceParts(p: Piece)
    requires p.Choice? && OkOne(p, true)
    ensures var content := Print(p.name) + OpText(p.plus) + Print(p.word);
      var k := |Print(p.name)|;
      && TopOperator(content, 0, 0) == Some(k)
      && content[..k] == Print(p.name) && content[k + 2..] == Print(p.word) && content[k + 1] == OpText(p.plus)[1]
  {
    var content := Print(p.name) + OpText(p.plus) + Print(p.word);
    var k := |Print(p.name)|;
    assert content[k] == ':' && content[k + 1] == OpText(p.plus)[1];
    TopSkips(content, 0, p.name, 0);
  }

  lemma {:induction false} ChoiceValue(p: Piece, depth: nat, env: Environment)
    requires p.Choice? && OkOne(p, true) && FitsOne(p, depth) && depth <= MAX_DEPTH
    ensures ExpandBraced(Print(p.name) + OpText(p.plus) + Print(p.word), depth, env) == ValueOne(p, env)
    decreases p, 0
  {
    ChoiceParts(p);
    ExpandPrint(p.name, true, depth + 1, env);
    ExpandPrint(p.word, true, depth + 1, env);
  }

  /** The text between the braces of a printed ${...}. */
  function Content(p: Piece): string
    requires p.Braced? || p.Choice?
  {
    if p.Braced? then Print(p.name) else Print(p.name) + OpText(p.plus) + Print(p.word)
  }

  lemma AtContent(s: string, i: nat, p: Piece)
    requires (p.Braced? || p.Choice?) && At(s, i, PrintOne(p))
    ensures |PrintOne(p)| == 3 + |Content(p)| && i + 3 + |Content(p)| <= |s|
    ensures s[i] == '$' && s[i + 1] == '{'
    ensures s[i + 2..i + 2 + |Content(p)|] == Content(p)
  {
    assert PrintOne(p) == "${" + Content(p) + "}";
    AtBraced(s, i, Content(p));
  }

  lemma TokenBraced(s: string, i: nat, depth: nat, env: Environment, close: nat)
    requires i + 1 < |s| && s[i] == '$' && s[i + 1] == '{' && CloseBrace(s, i + 2, 1) == Some(close)
    ensures Token(s, i, depth, env) == (ExpandBraced(s[i + 2..close], depth, env), close + 1)
  {
  }

  lemma {:induction false} ScanBraced(s: string, i: nat, p: Piece, depth: nat, env: Environment)
    requires (p.Braced? || p.Choice?) && OkOne(p, true) && FitsOne(p, depth) && depth <= MAX_DEPTH && At(s, i, PrintOne(p))
    ensures i < |s| && Token(s, i, depth, env) == (ValueOne(p, env), i + |PrintOne(p)|)
    decreases p, 1
  {
    hide Token, ExpandBraced, CloseBrace;
    AtContent(s, i, p);
    CloseFindsBrace(s, i, p);
    TokenBraced(s, i, depth, env, i + |PrintOne(p)| - 1);
    if p.Braced? {
      BracedNameValue(p, depth, env);
    } else {
      ChoiceValue(p, depth, env);
    }
  }

  lemma NameEndAfter(s: string, i: nat, name: string)
    requires At(s, i, name) && forall k :: 0 <= k < |name| ==> IsNameChar(name[k])
    requires i + |name| < |s| ==> !IsNameChar(s[i + |name|])
    ensures NameEnd(s, i) == i + |name|
  {
    forall k | i <= k < i + |name| ensures IsNameChar(s[k]) {
      assert s[i + (k - i)] == name[k - i];
    }
  }

  lemma ScanBare(s: string, i: nat, name: string, depth: nat, env: Environment)
    requires At(s, i, "$" + name) && IsName(name)
    requires i + 1 + |name| < |s| ==> !IsNameChar(s[i + 1 + |name|])
    ensures i < |s| && Token(s, i, depth, env) == (Lookup(env, name), i + 1 + |name|)
  {
    AtSplit(s, i, "$", name);
    assert s[i + 0] == "$"[0] && s[i + 1 + 0] == name[0];
    NameEndAfter(s, i + 1, name);
    assert s[i + 1..i + 1 + |name|] == name;
  }

  lemma ScanEscape(s: string, i: nat, c: char, depth: nat, env: Environment)
    requires At(s, i, ['\\', c]) && c != '\\'
    ensures Scan(s, i, depth, env) == (if c == '$' then "$" else ['\\', c]) + Scan(s, i + 2, depth, env)
  {
    var t := ['\\', c];
    assert s[i + 0] == t[0] && s[i + 1] == t[1];
    if c != '$' {
      assert Token(s, i, depth, env) == ("\\", i + 1);
      assert Token(s, i + 1, depth, env) == ([c], i + 2);
      assert "\\" + ([c] + Scan(s, i + 2, depth, env)) == ['\\', c] + Scan(s, i + 2, depth, env);
    }
  }

  lemma ScanStep(s: string, i: nat, depth: nat, env: Environment, text: string, next: nat)
    requires i < |s| && Token(s, i, depth, env) == (text, next)
    ensures Scan(s, i, depth, env) == text + Scan(s, next, depth, env)
  {
  }

  lemma ScanPlain(s: string, i: nat, p: Piece, inside: bool, depth: nat, env: Environment)
    requires (p.Ch? || p.Dollar?) && OkOne(p, inside) && At(s, i, PrintOne(p))
    requires p.Dollar? && i + 1 < |s| ==> s[i + 1] != '{' && !IsNameChar(s[i + 1])
    ensures i < |s| && Token(s, i, depth, env) == (ValueOne(p, env), i + 1) && |PrintOne(p)| == 1
  {
    var t := PrintOne(p);
    assert s[i + 0] == t[0];
  }

  /** One piece at position i, with nothing after it that would run into it. */
  lemma {:induction false} ScanOne(s: string, i: nat, p: Piece, inside: bool, depth: nat, env: Environment)
    requires OkOne(p, inside) && FitsOne(p, depth) && depth <= MAX_DEPTH && At(s, i, PrintOne(p))
    requires p.Dollar? && i + 1 < |s| ==> s[i + 1] != '{' && !IsNameChar(s[i + 1])
    requires p.Bare? && i + |PrintOne(p)| < |s| ==> !IsNameChar(s[i + |PrintOne(p)|])
    ensures Scan(s, i, depth, env) == ValueOne(p, env) + Scan(s, i + |PrintOne(p)|, depth, env)
    decreases p, 2
  {
    hide Token, Scan;
    match p
    case Ch(_) =>
      ScanPlain(s, i, p, inside, depth, env);
      ScanStep(s, i, depth, env, ValueOne(p, env), i + 1);
    case Dollar =>
      ScanPlain(s, i, p, inside, depth, env);
      ScanStep(s, i, depth, env, ValueOne(p, env), i + 1);
    case Esc(c) =>
      ScanEscape(s, i, c, depth, env);
    case Bare(id) =>
      ScanBare(s, i, id, depth, env);
      ScanStep(s, i, depth, env, ValueOne(p, env), i + 1 + |id|);
    case Braced(_) =>
      ScanBraced(s, i, p, depth, env);
      ScanStep(s, i, depth, env, ValueOne(p, env), i + |PrintOne(p)|);
    case Choice(_, _, _) =>
      ScanBraced(s, i, p, depth, env);
      ScanStep(s, i, depth, env, ValueOne(p, env), i + |PrintOne(p)|);
  }

  lemma {:induction false} ScanPrint(s: string, i: nat, ps: seq<Piece>, inside: bool, depth: nat, env: Environment)
    requires Ok(ps, inside) && Fits(ps, depth) && depth <= MAX_DEPTH
    requires At(s, i, Print(ps)) && i + |Print(ps)| == |s|
    ensures Scan(s, i, depth, env) == Value(ps, env)
    decreases ps, 0
  {
    if ps != [] {
      AtSplit(s, i, PrintOne(ps[0]), Print(ps[1..]));
      var j := i + |PrintOne(ps[0])|;
      if |ps| > 1 {
        FollowedApart(s, j, ps, inside);
      }
      ScanOne(s, i, ps[0], inside, depth, env);
      ScanPrint(s, j, ps[1..], inside, depth, env);
    }
  }

  /** Expanding the text of an expression tree gives the value of the tree. */
  lemma {:induction false} ExpandPrint(ps: seq<Piece>, inside: bool, depth: nat, env: Environment)
    requires Ok(ps, inside) && Fits(ps, depth)
    ensures Expand(Print(ps), depth, env) == Value(ps, env)
    decreases ps, 1
  {
    if depth > MAX_DEPTH {
      PlainIsItself(ps, depth, env);
    } else {
      ScanPrint(Print(ps), 0, ps, inside, depth, env);
    }
  }

  /** How deep braces are nested. */
  function NestingOne(p: Piece): nat
    decreases p, 1
  {
    match p
    case Braced(name) => 1 + Nesting(name)
    case Choice(name, _, word) => 1 + Max(Nesting(name), Nesting(word))
    case _ => 0
  }

  function Nesting(ps: seq<Piece>): nat
    decreases ps, 0
  {
    if ps == [] then 0 else Max(NestingOne(ps[0]), Nesting(ps[1..]))
  }

  lemma {:induction false} NestingFitsOne(p: Piece, depth: nat)
    requires NestingOne(p) + depth <= MAX_DEPTH
    ensures FitsOne(p, depth)
    decreases p, 1
  {
    match p
    case Braced(name) => NestingFits(name, depth + 1);
    case Choice(name, _, word) =>
      NestingFits(name, depth + 1);
      NestingFits(word, depth + 1);
    case _ =>
  }

  lemma {:induction false} NestingFits(ps: seq<Piece>, depth: nat)
    requires Nesting(ps) + depth <= MAX_DEPTH
    ensures Fits(ps, depth)
    decreases ps, 0
  {
    if ps != [] {
      NestingFitsOne(ps[0], depth);
      NestingFits(ps[1..], depth);
    }
  }

  /** Main theorem: the text of every expression nested at most 32 deep expands to its value. */
  lemma ExpandIsValue(ps: seq<Piece>, env: Environment)
    requires Ok(ps, false) && Nesting(ps) <= MAX_DEPTH
    ensures Expand(Print(ps), 0, env) == Value(ps, env)
  {
    NestingFits(ps, 0);
    ExpandPrint(ps, false, 0, env);
  }

  /** The name under which a variable reference asks the environment. */
  function AskedName(p: Piece, env: Environment): string
    requires p.Bare? || p.Braced?
  {
    if p.Bare? then p.id else Value(p.name, env)
  }

  /** What is substituted for a variable, bare or braced and anywhere in the text, is what the
      environment holds, and is not expanded again, whatever it looks like. */
  lemma SubstitutedOnce(before: seq<Piece>, p: Piece, after: seq<Piece>, env: Environment)
    requires p.Bare? || p.Braced?
    requires Ok(before + [p] + after, false) && Nesting(before + [p] + after) <= MAX_DEPTH
    ensures Expand(Print(before + [p] + after), 0, env) ==
      Value(before, env) + env(CString(AskedName(p, env))) + Value(after, env)
  {
    hide Ok, Nesting, Print, Expand;
    ExpandIsValue(before + [p] + after, env);
    ValueConcat(before + [p], after, env);
    ValueConcat(before, [p], env);
    ValueSingle(p, env);
  }

  lemma ValueSingle(p: Piece, env: Environment)
    ensures Value([p], env) == ValueOne(p, env)
  {
    assert [p][1..] == [];
    assert Value([p], env) == ValueOne(p, env) + "";
  }

  lemma {:induction false} ValueConcat(ps: seq<Piece>, qs: seq<Piece>, env: Environment)
    ensures Value(ps + qs, env) == Value(ps, env) + Value(qs, env)
    decreases |ps|
  {
    if ps == [] {
      assert ps + qs == qs;
    } else {
      assert (ps + qs)[1..] == ps[1..] + qs;
      ValueConcat(ps[1..], qs, env);
    }
  }

  // ---------------------------------------------------------------- expressions without nesting

  /** Names reach the environment up to their first NUL. */
  lemma {:induction false} CStringCuts(name: string)
    ensures CString(name) <= name && '\0' !in CString(name)
    ensures |CString(name)| < |name| ==> name[|CString(name)|] == '\0'
    decreases |name|
  {
    if name != "" && name[0] != '\0' {
      CStringCuts(name[1..]);
      assert name == [name[0]] + name[1..];
    }
  }

  /** Text in which nothing is special. */
  predicate PlainText(s: string) {
    forall k :: 0 <= k < |s| ==> s[k] != '$' && s[k] != '\\' && s[k] != '}'
  }

  function Chars(s: string): seq<Piece> {
    seq(|s|, k requires 0 <= k < |s| => Ch(s[k]))
  }

  lemma {:induction false} CharsAre(s: string, env: Environment)
    requires PlainText(s)
    ensures Print(Chars(s)) == s && Value(Chars(s), env) == s && Ok(Chars(s), true) && Nesting(Chars(s)) == 0
    decreases |s|
  {
    if s != "" {
      CharsAre(s[1..], env);
      assert Chars(s)[1..] == Chars(s[1..]) && Chars(s)[0] == Ch(s[0]);
      assert OkOne(Ch(s[0]), true);
      assert s == [s[0]] + s[1..];
    }
  }

  lemma NameIsPlain(name: string)
    requires IsName(name)
    ensures PlainText(name) && NoOperator(Chars(name)) && CString(name) == name
  {
    CStringCuts(name);
    assert forall k :: 0 <= k < |name| ==> IsNameChar(name[k]);
  }

  lemma SingleMeans(p: Piece, env: Environment)
    requires OkOne(p, false) && NestingOne(p) <= MAX_DEPTH
    ensures Expand(PrintOne(p), 0, env) == ValueOne(p, env)
  {
    hide Expand, OkOne, NestingOne, PrintOne, ValueOne;
    var ps := [p];
    assert ps[1..] == [];
    assert Ok(ps[1..], false) && Nesting(ps[1..]) == 0 && Print(ps[1..]) == "";
    assert Print(ps) == PrintOne(p) + "" == PrintOne(p);
    ValueSingle(p, env);
    ExpandIsValue(ps, env);
    assert Expand(Print(ps), 0, env) == Value(ps, env) == ValueOne(p, env);
  }

  /** What the expressions say, letter by letter: a variable is what the environment holds; after ":-" comes what
      stands for one that is unset or empty, after ":+" what stands for one that is not. */
  lemma ExpressionsMean(name: string, word: string, env: Environment)
    requires IsName(name) && PlainText(word)
    ensures Expand("$" + name, 0, env) == env(name)
    ensures Expand("${" + name + "}", 0, env) == env(name)
    ensures Expand("${" + name + ":-" + word + "}", 0, env) == if env(name) == "" then word else env(name)
    ensures Expand("${" + name + ":+" + word + "}", 0, env) == if env(name) == "" then "" else word
  {
    hide Expand;
    NameIsPlain(name);
    CharsAre(name, env);
    CharsAre(word, env);
    SingleMeans(Bare(name), env);
    SingleMeans(Braced(Chars(name)), env);
    SingleMeans(Choice(Chars(name), false, Chars(word)), env);
    SingleMeans(Choice(Chars(name), true, Chars(word)), env);
  }

  // ---------------------------------------------------------------- the depth limit is tight

  /** An escaped '$' inside n + 1 pairs of braces. */
  function Wrap(n: nat): seq<Piece> {
    if n == 0 then [Braced([Esc('$')])] else [Braced(Wrap(n - 1))]
  }

  /** The environment in which every variable holds its own name. */
  function Mirror(name: string): string {
    name
  }

  lemma {:induction false} WrapIsNested(n: nat)
    ensures Ok(Wrap(n), true) && Ok(Wrap(n), false) && Nesting(Wrap(n)) == n + 1 && Value(Wrap(n), Mirror) == "$"
  {
    var inner := if n == 0 then [Esc('$')] else Wrap(n - 1);
    assert Lookup(Mirror, "$") == "$" by { assert "$"[1..] == ""; }
    if n == 0 {
      EscapedDollar();
    } else {
      WrapIsNested(n - 1);
    }
    SingleBraced(inner);
  }

  lemma EscapedDollar()
    ensures var name := [Esc('$')];
      Ok(name, true) && NoOperator(name) && Nesting(name) == 0 && Value(name, Mirror) == "$" && Print(name) == "\\$"
  {
    var name := [Esc('$')];
    assert name[1..] == [];
    assert OkOne(name[0], true);
    ValueSingle(Esc('$'), Mirror);
  }

  lemma SingleBraced(inner: seq<Piece>)
    requires Ok(inner, true) && NoOperator(inner)
    ensures var ps := [Braced(inner)];
      Ok(ps, true) && Ok(ps, false) && NoOperator(ps) && Nesting(ps) == 1 + Nesting(inner)
      && Value(ps, Mirror) == Lookup(Mirror, Value(inner, Mirror))
  {
    var ps := [Braced(inner)];
    assert ps[1..] == [];
    assert OkOne(ps[0], true) && OkOne(ps[0], false);
    ValueSingle(Braced(inner), Mirror);
  }

  /** The piece inside the outermost braces. */
  function Inside(n: nat): seq<Piece> {
    if n == 0 then [Esc('$')] else Wrap(n - 1)
  }

  lemma RawLookup()
    ensures Lookup(Mirror, "\\$") == "\\$"
  {
    assert "\\$"[1..] == "$" && "$"[1..] == "";
  }

  lemma InsideIsOk(n: nat)
    ensures Ok(Inside(n), true) && NoOperator(Inside(n))
  {
    if n == 0 {
      EscapedDollar();
    } else {
      WrapIsNested(n - 1);
    }
  }

  /** n levels above the limit the innermost name is taken raw. */
  lemma {:induction false} WrapStaysRaw(n: nat)
    requires n <= MAX_DEPTH
    ensures Expand(Print(Wrap(n)), MAX_DEPTH - n, Mirror) == "\\$"
    decreases n, 1
  {
    hide Token, ExpandBraced, CloseBrace, PrintOne;
    var p, depth := Braced(Inside(n)), MAX_DEPTH - n;
    InsideIsOk(n);
    WrappedName(n);
    assert Wrap(n) == [p] && [p][1..] == [];
    var s := Print(Wrap(n));
    assert s == PrintOne(p) + "";
    AtContent(s, 0, p);
    CloseFindsBrace(s, 0, p);
    TokenBraced(s, 0, depth, Mirror, |s| - 1);
    ScanStep(s, 0, depth, Mirror, "\\$", |s|);
  }

  lemma {:induction false} WrappedName(n: nat)
    requires n <= MAX_DEPTH
    ensures ExpandBraced(Print(Inside(n)), MAX_DEPTH - n, Mirror) == "\\$"
    decreases n, 0
  {
    RawLookup();
    InsideIsOk(n);
    TopSkips(Print(Inside(n)), 0, Inside(n), 0);
    if n == 0 {
      EscapedDollar();
    } else {
      WrapStaysRaw(n - 1);
    }
  }

  /** One level more than allowed: an escaped '$' inside 33 pairs of braces, expanded as configuration is,
      gives the name of the variable with its backslash, which is not its value. */
  lemma TooDeepIsRaw()
    ensures Ok(Wrap(MAX_DEPTH), false) && Nesting(Wrap(MAX_DEPTH)) == MAX_DEPTH + 1
    ensures Expand(Print(Wrap(MAX_DEPTH)), 0, Mirror) == "\\$" && Value(Wrap(MAX_DEPTH), Mirror) == "$"
  {
    WrapIsNested(MAX_DEPTH);
    WrapStaysRaw(MAX_DEPTH);
  }

  ghost predicate ExpandsTo(ps: seq<Piece>, env: Environment) {
    Expand(Print(ps), 0, env) == Value(ps, env)
  }

  /** All expressions nested at most n deep expand to their values in every environment if and only if n
      is at most 32. */
  lemma DepthLimitIsTight(n: nat)
    ensures (forall ps, env :: Ok(ps, false) && Nesting(ps) <= n ==> ExpandsTo(ps, env)) <==> n <= MAX_DEPTH
  {
    if n <= MAX_DEPTH {
      forall ps, env | Ok(ps, false) && Nesting(ps) <= n ensures ExpandsTo(ps, env) {
        ExpandIsValue(ps, env);
      }
    } else {
      TooDeepIsRaw();
      assert !ExpandsTo(Wrap(MAX_DEPTH), Mirror);
    }
  }

  // ---------------------------------------------------------------- escaping any text

  /** Writes \$ for each '$'. */
  function {:tailrecursion false} Escape(s: string): string {
    if s == "" then "" else (if s[0] == '$' then "\\$" else [s[0]]) + Escape(s[1..])
  }

  lemma {:induction false} ScanEscaped(t: string, i: nat, s: string, depth: nat, env: Environment)
    requires At(t, i, Escape(s)) && i + |Escape(s)| == |t|
    ensures Scan(t, i, depth, env) == s
    decreases |s|
  {
    if s != "" {
      var first := if s[0] == '$' then "\\$" else [s[0]];
      AtSplit(t, i, first, Escape(s[1..]));
      assert t[i + 0] == first[0];
      if s[0] == '$' {
        assert t[i + 1] == first[1];
      } else if |s| > 1 {
        assert t[i + 1 + 0] == Escape(s[1..])[0] != '$';
      }
      ScanEscaped(t, i + |first|, s[1..], depth, env);
    }
  }

  /** Any text at all comes back from expansion when each '$' in it is written \$. */
  lemma EscapeRoundTrip(s: string, env: Environment)
    ensures Expand(Escape(s), 0, env) == s
  {
    ScanEscaped(Escape(s), 0, s, 0, env);
  }
}
