/** Template rendering: repeated ReplaceAll over a map whose iteration order Go leaves open. */
module Template {
  import opened Records

  /** strings.ReplaceAll for a non-empty pattern: leftmost matches first, not overlapping. */
  function ReplaceAll(s: string, pattern: string, value: string): string
    requires pattern != ""
  {
    if |s| < |pattern| then s
    else if s[..|pattern|] == pattern then value + ReplaceAll(s[|pattern|..], pattern, value)
    else [s[0]] + ReplaceAll(s[1..], pattern, value)
  }

  function Placeholder(key: string): string {
    "{{" + key + "}}"
  }

  /** One pass of the loop per key, in the order the map happens to yield them. */
  function RenderInOrder(text: string, order: seq<string>, vars: map<string, string>): string
    requires forall k :: k in order ==> k in vars
    decreases |order|
  {
    if order == [] then text
    else RenderInOrder(ReplaceAll(text, Placeholder(order[0]), vars[order[0]]), order[1..], vars)
  }

  /** The loops of Render; each picks its keys in any order. */
  method RenderText(text: string, vars: map<string, string>) returns (result: string, ghost order: seq<string>)
    ensures Distinct(order) && forall k :: k in order <==> k in vars
    ensures result == RenderInOrder(text, order, vars)
    ensures forall ps, vals :: text == Text(ps) && vars == Spelled(vals) && WellFormed(ps) && WellFormedVars(vals) && Inert(vals)
              ==> result == Text(Fill(ps, vars))
  {
    result, order := text, [];
    var left := vars.Keys;
    while left != {}
      invariant left <= vars.Keys
      invariant Distinct(order) && forall k :: k in order <==> k in vars && k !in left
      invariant result == RenderInOrder(text, order, vars)
      decreases left
    {
      var key :| key in left;
      RenderAppend(text, order, key, vars);
      result := ReplaceAll(result, Placeholder(key), vars[key]);
      order := order + [key];
      left := left - {key};
    }
    forall ps, vals | text == Text(ps) && vars == Spelled(vals) && WellFormed(ps) && WellFormedVars(vals) && Inert(vals)
      ensures result == Text(Fill(ps, vars))
    {
      OrderIrrelevant(ps, order, vals);
    }
  }

  /** Content and subject alike, each in an iteration order of its own. */
  method Render(content: string, subject: Option<string>, vars: map<string, string>)
    returns (rendered: string, renderedSubject: Option<string>, ghost order: seq<string>, ghost subjectOrder: seq<string>)
    ensures Distinct(order) && forall k :: k in order <==> k in vars
    ensures Distinct(subjectOrder) && forall k :: k in subjectOrder <==> k in vars
    ensures rendered == RenderInOrder(content, order, vars)
    ensures subject.Some? ==> renderedSubject == Some(RenderInOrder(subject.value, subjectOrder, vars))
    ensures forall ps, vals :: content == Text(ps) && vars == Spelled(vals) && WellFormed(ps) && WellFormedVars(vals) && Inert(vals)
              ==> rendered == Text(Fill(ps, vars))
    ensures renderedSubject.Some? <==> subject.Some?
    ensures subject.Some? ==>
              forall ps, vals :: subject.value == Text(ps) && vars == Spelled(vals) && WellFormed(ps) && WellFormedVars(vals) && Inert(vals)
                ==> renderedSubject.value == Text(Fill(ps, vars))
  {
    rendered, order := RenderText(content, vars);
    renderedSubject, subjectOrder := None, order;
    if subject.Some? {
      var text;
      text, subjectOrder := RenderText(subject.value, vars);
      renderedSubject := Some(text);
    }
  }

  lemma {:induction false} RenderAppend(text: string, order: seq<string>, key: string, vars: map<string, string>)
    requires key in vars && forall k :: k in order ==> k in vars
    ensures RenderInOrder(text, order + [key], vars) == ReplaceAll(RenderInOrder(text, order, vars), Placeholder(key), vars[key])
    decreases |order|
  {
    if order == [] {
      assert (order + [key])[1..] == [];
    } else {
      assert (order + [key])[1..] == order[1..] + [key];
      RenderAppend(ReplaceAll(text, Placeholder(order[0]), vars[order[0]]), order[1..], key, vars);
    }
  }

  // ---- Well-formed templates and simultaneous substitution

  datatype Piece = Lit(text: string) | Hole(name: string)

  predicate BraceFree(s: string) {
    '{' !in s && '}' !in s
  }

  function Show(p: Piece): string {
    match p
    case Lit(text) => text
    case Hole(name) => Placeholder(name)
  }

  function Text(ps: seq<Piece>): string {
    if ps == [] then "" else Show(ps[0]) + Text(ps[1..])
  }

  /** Literals in which no placeholder can start, and placeholders with plain names. */
  predicate WellFormed(ps: seq<Piece>) {
    forall i :: 0 <= i < |ps| ==> match ps[i] case Lit(t) => '{' !in t case Hole(n) => BraceFree(n)
  }

  /** Values that are themselves literals and placeholders; a value without '{' is one literal. */
  predicate WellFormedVars(vals: map<string, seq<Piece>>) {
    forall k :: k in vals ==> BraceFree(k) && WellFormed(vals[k])
  }

  function Spelled(vals: map<string, seq<Piece>>): map<string, string> {
    map k | k in vals :: Text(vals[k])
  }

  /** No value holds the placeholder of another variable, unless that variable stands for its own placeholder. */
  predicate Inert(vals: map<string, seq<Piece>>) {
    forall a, b :: a in vals && b in vals && a != b && Hole(b) in vals[a] ==> Text(vals[b]) == Placeholder(b)
  }

  /** Simultaneous substitution: every known placeholder at once, unknown ones left in place. */
  function FillPiece(p: Piece, vars: map<string, string>): Piece {
    if p.Hole? && p.name in vars then Lit(vars[p.name]) else p
  }

  function Fill(ps: seq<Piece>, vars: map<string, string>): seq<Piece> {
    seq(|ps|, i requires 0 <= i < |ps| => FillPiece(ps[i], vars))
  }

  // ---- Searching

  predicate Occurs(s: string, pattern: string, i: nat) {
    i + |pattern| <= |s| && s[i..i + |pattern|] == pattern
  }

  /** A text without the pattern stays as it is. */
  lemma {:induction false} ReplaceNone(s: string, pattern: string, value: string)
    requires pattern != "" && forall i: nat :: i <= |s| ==> !Occurs(s, pattern, i)
    ensures ReplaceAll(s, pattern, value) == s
    decreases |s|
  {
    if s != "" {
      assert !Occurs(s, pattern, 0);
      StepOver(s, pattern, value);
      forall i: nat | i <= |s[1..]| ensures !Occurs(s[1..], pattern, i) {
        ShiftOccurs(s, pattern, i);
      }
      ReplaceNone(s[1..], pattern, value);
    }
  }

  /** The first occurrence is replaced, and the search goes on after it. */
  lemma {:induction false} ReplaceFirst(pre: string, pattern: string, post: string, value: string)
    requires pattern != "" && forall i: nat :: i < |pre| ==> !Occurs(pre + pattern + post, pattern, i)
    ensures ReplaceAll(pre + pattern + post, pattern, value) == pre + (value + ReplaceAll(post, pattern, value))
    decreases |pre|
  {
    var s := pre + pattern + post;
    if pre == "" {
      assert s[..|pattern|] == pattern && s[|pattern|..] == post;
    } else {
      var rest := pre[1..];
      assert s[1..] == rest + pattern + post && s[0] == pre[0];
      assert !Occurs(s, pattern, 0);
      StepOver(s, pattern, value);
      forall i: nat | i < |rest| ensures !Occurs(rest + pattern + post, pattern, i) {
        ShiftOccurs(s, pattern, i);
      }
      ReplaceFirst(rest, pattern, post, value);
      PutBack(pre, value + ReplaceAll(post, pattern, value));
    }
  }

  lemma PutBack(pre: string, rest: string)
    requires pre != ""
    ensures [pre[0]] + (pre[1..] + rest) == pre + rest
  {
  }

  lemma ShiftOccurs(s: string, pattern: string, i: nat)
    requires s != ""
    ensures Occurs(s[1..], pattern, i) == Occurs(s, pattern, i + 1)
  {
    if i + 1 + |pattern| <= |s| {
      assert s[1..][i..i + |pattern|] == s[i + 1..i + 1 + |pattern|];
    }
  }

  lemma {:induction false} CopyPrefix(t: string, rest: string, pattern: string, value: string)
    requires pattern != "" && pattern[0] == '{' && '{' !in t
    ensures ReplaceAll(t + rest, pattern, value) == t + ReplaceAll(rest, pattern, value)
    decreases |t|
  {
    if t == "" {
      assert t + rest == rest;
    } else {
      var s := t + rest;
      assert s[1..] == t[1..] + rest && s[0] == t[0] && t[0] in t;
      StepOver(s, pattern, value);
      CopyPrefix(t[1..], rest, pattern, value);
      assert [t[0]] + (t[1..] + ReplaceAll(rest, pattern, value)) == t + ReplaceAll(rest, pattern, value);
    }
  }

  lemma MatchHole(key: string, rest: string, value: string)
    ensures ReplaceAll(Placeholder(key) + rest, Placeholder(key), value) == value + ReplaceAll(rest, Placeholder(key), value)
  {
    var s := Placeholder(key) + rest;
    assert s[..|Placeholder(key)|] == Placeholder(key);
    assert s[|Placeholder(key)|..] == rest;
  }

  /** Two brace-free names whose placeholders match at the same place are the same. */
  lemma PlaceholderPrefix(key: string, name: string, rest: string)
    requires BraceFree(key) && BraceFree(name)
    requires Placeholder(key) <= Placeholder(name) + rest
    ensures key == name
  {
    var p, s := Placeholder(key), Placeholder(name) + rest;
    assert p[2 + |key|] == '}' && s[2 + |name|] == '}';
    assert forall i :: 0 <= i < |name| ==> s[2 + i] == name[i] && name[i] in name;
    assert forall i :: 0 <= i < |key| ==> p[2 + i] == key[i] && key[i] in key;
  }

  /** The pattern of another key matches at neither opening brace of a placeholder. */
  lemma NoMatchAtBraces(key: string, name: string, rest: string)
    requires BraceFree(key) && BraceFree(name) && key != name
    ensures !(Placeholder(key) <= Placeholder(name) + rest)
    ensures !(Placeholder(key) <= "{" + (name + "}}" + rest))
  {
    if Placeholder(key) <= Placeholder(name) + rest {
      PlaceholderPrefix(key, name, rest);
    }
    var s := "{" + (name + "}}" + rest);
    assert s[1] == if name == "" then '}' else name[0];
    assert Placeholder(key)[1] == '{';
  }

  lemma SkipHole(key: string, name: string, rest: string, value: string)
    requires BraceFree(key) && BraceFree(name) && key != name
    ensures ReplaceAll(Placeholder(name) + rest, Placeholder(key), value)
            == Placeholder(name) + ReplaceAll(rest, Placeholder(key), value)
  {
    var pattern, tail := Placeholder(key), name + "}}";
    Braces(name, rest);
    Braces(name, ReplaceAll(rest, pattern, value));
    NoMatchAtBraces(key, name, rest);
    StepOverTwo(Placeholder(name) + rest, pattern, value);
    CopyPrefix(tail, rest, pattern, value);
  }

  lemma Braces(name: string, rest: string)
    ensures var s := Placeholder(name) + rest;
            && |s| >= 2 && s[..2] == "{{" && s[1..] == "{" + (name + "}}" + rest) && s[2..] == name + "}}" + rest
            && s == "{{" + (name + "}}" + rest)
  {
  }

  lemma StepOverTwo(s: string, pattern: string, value: string)
    requires pattern != "" && |s| >= 2 && !(pattern <= s) && !(pattern <= s[1..])
    ensures ReplaceAll(s, pattern, value) == s[..2] + ReplaceAll(s[2..], pattern, value)
  {
    StepOver(s, pattern, value);
    StepOver(s[1..], pattern, value);
    assert s[1..][1..] == s[2..] && [s[0]] + [s[1]] == s[..2];
  }

  lemma StepOver(s: string, pattern: string, value: string)
    requires pattern != "" && s != ""
    requires !(pattern <= s)
    ensures ReplaceAll(s, pattern, value) == [s[0]] + ReplaceAll(s[1..], pattern, value)
  {
  }

  /** One ReplaceAll pass fills exactly the placeholders of its key. */
  lemma {:induction false} PassFillsKey(ps: seq<Piece>, key: string, value: string)
    requires WellFormed(ps) && BraceFree(key)
    ensures ReplaceAll(Text(ps), Placeholder(key), value) == Text(Fill(ps, map[key := value]))
    decreases |ps|
  {
    var vars := map[key := value];
    if ps != [] {
      var rest := Text(ps[1..]);
      PassFillsKey(ps[1..], key, value);
      assert Fill(ps, vars)[1..] == Fill(ps[1..], vars);
      match ps[0]
      case Lit(t) => CopyPrefix(t, rest, Placeholder(key), value);
      case Hole(n) =>
        if n == key {
          MatchHole(key, rest, value);
        } else {
          SkipHole(key, n, rest, value);
        }
    }
  }

  // ---- Every order, or not

  lemma {:induction false} TextConcat(ps: seq<Piece>, qs: seq<Piece>)
    ensures Text(ps + qs) == Text(ps) + Text(qs)
    decreases |ps|
  {
    if ps == [] {
      assert ps + qs == qs;
    } else {
      assert (ps + qs)[1..] == ps[1..] + qs;
      TextConcat(ps[1..], qs);
    }
  }

  lemma FillConcat(ps: seq<Piece>, qs: seq<Piece>, vars: map<string, string>)
    ensures Fill(ps + qs, vars) == Fill(ps, vars) + Fill(qs, vars)
  {
  }

  /** Filling with what is there already, or what is not there at all, changes nothing. */
  lemma {:induction false} FillNothing(ps: seq<Piece>, key: string, value: string)
    requires Hole(key) !in ps || value == Placeholder(key)
    ensures Text(Fill(ps, map[key := value])) == Text(ps)
    decreases |ps|
  {
    if ps != [] {
      FillNothing(ps[1..], key, value);
      assert Fill(ps, map[key := value])[1..] == Fill(ps[1..], map[key := value]);
    }
  }

  function ExpandPiece(p: Piece, done: set<string>, vals: map<string, seq<Piece>>): seq<Piece> {
    if p.Hole? && p.name in done && p.name in vals then vals[p.name] else [p]
  }

  /** The pieces once the variables in `done` are replaced by their values. */
  function Expand(ps: seq<Piece>, done: set<string>, vals: map<string, seq<Piece>>): seq<Piece> {
    if ps == [] then [] else ExpandPiece(ps[0], done, vals) + Expand(ps[1..], done, vals)
  }

  lemma {:induction false} ExpandWellFormed(ps: seq<Piece>, done: set<string>, vals: map<string, seq<Piece>>)
    requires WellFormed(ps) && WellFormedVars(vals)
    ensures WellFormed(Expand(ps, done, vals))
    decreases |ps|
  {
    if ps != [] {
      ExpandWellFormed(ps[1..], done, vals);
    }
  }

  lemma ShowAlone(p: Piece)
    ensures Text([p]) == Show(p)
  {
    assert Text([p]) == Show(p) + Text([p][1..]);
  }

  lemma FillExpandedPiece(p: Piece, done: set<string>, vals: map<string, seq<Piece>>, key: string)
    requires Inert(vals) && key in vals && key !in done
    ensures Text(Fill(ExpandPiece(p, done, vals), map[key := Text(vals[key])])) == Text(ExpandPiece(p, done + {key}, vals))
  {
    if p == Hole(key) {
      assert Fill([p], map[key := Text(vals[key])]) == [Lit(Text(vals[key]))];
      ShowAlone(Lit(Text(vals[key])));
    } else {
      FillNothing(ExpandPiece(p, done, vals), key, Text(vals[key]));
    }
  }

  /** The next pass leaves the values already put in alone. */
  lemma {:induction false} FillExpanded(ps: seq<Piece>, done: set<string>, vals: map<string, seq<Piece>>, key: string)
    requires Inert(vals) && key in vals && key !in done
    ensures Text(Fill(Expand(ps, done, vals), map[key := Text(vals[key])])) == Text(Expand(ps, done + {key}, vals))
    decreases |ps|
  {
    if ps != [] {
      var fill := map[key := Text(vals[key])];
      var first, rest := ExpandPiece(ps[0], done, vals), Expand(ps[1..], done, vals);
      FillExpandedPiece(ps[0], done, vals, key);
      FillExpanded(ps[1..], done, vals, key);
      FillConcat(first, rest, fill);
      TextConcat(Fill(first, fill), Fill(rest, fill));
      TextConcat(ExpandPiece(ps[0], done + {key}, vals), Expand(ps[1..], done + {key}, vals));
    } else {
      assert Fill([], map[key := Text(vals[key])]) == [];
    }
  }

  function Names(order: seq<string>): set<string> {
    if order == [] then {} else {order[0]} + Names(order[1..])
  }

  lemma {:induction false} NamesHold(order: seq<string>)
    ensures forall k :: k in order ==> k in Names(order)
  {
    if order != [] {
      NamesHold(order[1..]);
      assert order == [order[0]] + order[1..];
    }
  }

  lemma {:induction false} RenderExpands(ps: seq<Piece>, done: set<string>, order: seq<string>, vals: map<string, seq<Piece>>)
    requires WellFormed(ps) && WellFormedVars(vals) && Inert(vals) && Distinct(order)
    requires forall k :: k in order ==> k in vals && k !in done
    ensures RenderInOrder(Text(Expand(ps, done, vals)), order, Spelled(vals))
            == Text(Expand(ps, done + Names(order), vals))
    decreases |order|
  {
    if order == [] {
      assert done + Names(order) == done;
    } else {
      var k := order[0];
      assert order == [k] + order[1..] && k in order;
      ExpandWellFormed(ps, done, vals);
      PassFillsKey(Expand(ps, done, vals), k, Text(vals[k]));
      FillExpanded(ps, done, vals, k);
      assert forall x :: x in order[1..] ==> x in order && x != k;
      RenderExpands(ps, done + {k}, order[1..], vals);
      assert done + {k} + Names(order[1..]) == done + Names(order);
    }
  }

  lemma {:induction false} ExpandNone(ps: seq<Piece>, vals: map<string, seq<Piece>>)
    ensures Expand(ps, {}, vals) == ps
    decreases |ps|
  {
    if ps != [] {
      ExpandNone(ps[1..], vals);
    }
  }

  lemma {:induction false} ExpandAll(ps: seq<Piece>, done: set<string>, vals: map<string, seq<Piece>>)
    requires vals.Keys <= done
    ensures Text(Expand(ps, done, vals)) == Text(Fill(ps, Spelled(vals)))
    decreases |ps|
  {
    if ps != [] {
      ExpandAll(ps[1..], done, vals);
      assert Fill(ps, Spelled(vals))[1..] == Fill(ps[1..], Spelled(vals));
      TextConcat(ExpandPiece(ps[0], done, vals), Expand(ps[1..], done, vals));
      ShowAlone(ps[0]);
    }
  }

  /** An order in which the map may yield its keys. */
  ghost predicate Permutes(order: seq<string>, vals: map<string, seq<Piece>>) {
    Distinct(order) && forall k :: k in order <==> k in vals
  }

  /** Whatever order the map yields its keys in, rendering with inert values is simultaneous substitution. */
  lemma OrderIrrelevant(ps: seq<Piece>, order: seq<string>, vals: map<string, seq<Piece>>)
    requires WellFormed(ps) && WellFormedVars(vals) && Inert(vals) && Permutes(order, vals)
    ensures RenderInOrder(Text(ps), order, Spelled(vals)) == Text(Fill(ps, Spelled(vals)))
  {
    ExpandNone(ps, vals);
    RenderExpands(ps, {}, order, vals);
    NamesHold(order);
    ExpandAll(ps, {} + Names(order), vals);
  }

  // ---- The other direction

  lemma {:induction false} FillLength(ps: seq<Piece>, key: string, value: string)
    ensures |value| >= |Placeholder(key)| ==> |Text(Fill(ps, map[key := value]))| >= |Text(ps)|
    ensures |value| <= |Placeholder(key)| ==> |Text(Fill(ps, map[key := value]))| <= |Text(ps)|
    decreases |ps|
  {
    if ps != [] {
      FillLength(ps[1..], key, value);
      assert Fill(ps, map[key := value])[1..] == Fill(ps[1..], map[key := value]);
    }
  }

  lemma HeadsDiffer(s: string, x: string, t: string, y: string)
    requires s != t && (|s| >= |t| ==> |x| >= |y|) && (|s| <= |t| ==> |x| <= |y|)
    ensures s + x != t + y
  {
    if |s| == |t| {
      assert (s + x)[..|s|] == s && (t + y)[..|s|] == t;
    } else {
      assert |s + x| != |t + y|;
    }
  }

  /** Filling a placeholder that is there with anything else changes the text. */
  lemma {:induction false} FillChanges(ps: seq<Piece>, key: string, value: string)
    requires Hole(key) in ps && value != Placeholder(key)
    ensures Text(Fill(ps, map[key := value])) != Text(ps)
    decreases |ps|
  {
    var rest := Text(ps[1..]);
    var filled := Text(Fill(ps[1..], map[key := value]));
    assert Fill(ps, map[key := value])[1..] == Fill(ps[1..], map[key := value]);
    if ps[0] == Hole(key) {
      FillLength(ps[1..], key, value);
      HeadsDiffer(value, filled, Placeholder(key), rest);
    } else {
      FillChanges(ps[1..], key, value);
      assert (Show(ps[0]) + filled)[|Show(ps[0])|..] == filled;
      assert (Show(ps[0]) + rest)[|Show(ps[0])|..] == rest;
    }
  }

  lemma {:induction false} Untouched(name: string, order: seq<string>, vars: map<string, string>)
    requires BraceFree(name) && name !in order && forall k :: k in order ==> k in vars && BraceFree(k)
    ensures RenderInOrder(Placeholder(name), order, vars) == Placeholder(name)
    decreases |order|
  {
    if order != [] {
      SkipHole(order[0], name, "", vars[order[0]]);
      assert Placeholder(name) + "" == Placeholder(name);
      Untouched(name, order[1..], vars);
    }
  }

  lemma {:induction false} SomeOrder(keys: set<string>) returns (order: seq<string>)
    ensures Distinct(order) && forall k :: k in order <==> k in keys
    decreases keys
  {
    order := [];
    if keys != {} {
      var k :| k in keys;
      order := SomeOrder(keys - {k});
      order := order + [k];
    }
  }

  /** The value of `a` with or without the placeholder of `b` in it replaced, as `a` comes before `b` or after. */
  lemma TwoOrders(vals: map<string, seq<Piece>>, a: string, b: string, order: seq<string>)
    requires WellFormedVars(vals) && a in vals && b in vals && a != b
    requires a !in order && forall k :: k in order ==> k in vals
    ensures RenderInOrder(Placeholder(a), order + [b] + [a], Spelled(vals)) == Text(vals[a])
    ensures RenderInOrder(Placeholder(a), order + [a] + [b], Spelled(vals)) == Text(Fill(vals[a], map[b := Text(vals[b])]))
  {
    var vars, text := Spelled(vals), Placeholder(a);
    assert text + "" == text && Text(vals[a]) + "" == Text(vals[a]);
    MatchHole(a, "", Text(vals[a]));
    SkipHole(b, a, "", Text(vals[b]));
    Untouched(a, order, vars);
    RenderAppend(text, order, a, vars);
    RenderAppend(text, order + [a], b, vars);
    RenderAppend(text, order, b, vars);
    RenderAppend(text, order + [b], a, vars);
    PassFillsKey(vals[a], b, Text(vals[b]));
  }

  /** A value with the placeholder of another variable in it: two orders of the same map give different texts. */
  lemma OrderMatters(vals: map<string, seq<Piece>>, a: string, b: string) returns (one: seq<string>, other: seq<string>)
    requires WellFormedVars(vals) && a in vals && b in vals && a != b
    requires Hole(b) in vals[a] && Text(vals[b]) != Placeholder(b)
    ensures Permutes(one, vals) && Permutes(other, vals)
    ensures RenderInOrder(Placeholder(a), one, Spelled(vals)) == Text(vals[a])
    ensures RenderInOrder(Placeholder(a), other, Spelled(vals)) != Text(vals[a])
  {
    var order := SomeOrder(vals.Keys - {a, b});
    TwoOrders(vals, a, b, order);
    FillChanges(vals[a], b, Text(vals[b]));
    one, other := order + [b] + [a], order + [a] + [b];
    LastTwo(order, vals, b, a);
    LastTwo(order, vals, a, b);
  }

  lemma LastTwo(order: seq<string>, vals: map<string, seq<Piece>>, x: string, y: string)
    requires x in vals && y in vals && x != y && Distinct(order)
    requires forall k :: k in order <==> k in vals && k != x && k != y
    ensures Permutes(order + [x] + [y], vals)
  {
    var all := order + [x] + [y];
    forall i, j | 0 <= i < j < |all| ensures all[i] != all[j] {
      assert i < |order| ==> all[i] == order[i] && order[i] in order;
      assert j < |order| ==> all[j] == order[j];
    }
    assert all[|order|] == x && all[|order| + 1] == y;
    assert forall k :: k in all <==> k in order || k == x || k == y;
  }

  ghost predicate RendersAlike(vals: map<string, seq<Piece>>) {
    forall ps, order :: WellFormed(ps) && Permutes(order, vals) ==>
      RenderInOrder(Text(ps), order, Spelled(vals)) == Text(Fill(ps, Spelled(vals)))
  }

  /** Rendering is simultaneous substitution, for every well-formed template and every order, exactly for inert values. */
  lemma RendersAlikeIffInert(vals: map<string, seq<Piece>>)
    requires WellFormedVars(vals)
    ensures RendersAlike(vals) <==> Inert(vals)
  {
    if Inert(vals) {
      forall ps, order | WellFormed(ps) && Permutes(order, vals)
        ensures RenderInOrder(Text(ps), order, Spelled(vals)) == Text(Fill(ps, Spelled(vals)))
      {
        OrderIrrelevant(ps, order, vals);
      }
    } else {
      var a, b :| a in vals && b in vals && a != b && Hole(b) in vals[a] && Text(vals[b]) != Placeholder(b);
      var one, other := OrderMatters(vals, a, b);
      var ps := [Hole(a)];
      assert Text(ps) == Placeholder(a) + Text(ps[1..]) && Placeholder(a) + "" == Placeholder(a);
      assert WellFormed(ps);
      assert RenderInOrder(Text(ps), one, Spelled(vals)) != RenderInOrder(Text(ps), other, Spelled(vals));
    }
  }
}
