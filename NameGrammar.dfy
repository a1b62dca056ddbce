/**
 * The name grammar of experiments and alternatives, `^[a-z0-9][a-z0-9\-_ ]*$`
 * (sixpack.go:28). The expression is modelled the way a regular-expression
 * engine runs it: a deterministic automaton reads the whole string, and the
 * string matches when the automaton ends in its accepting state. Because both
 * anchors are present and Go's `$` matches only at the end of the text, the
 * whole string must be consumed.
 */
module NameGrammar {

  /** `[a-z0-9]`: the characters a name may start with. */
  predicate IsLeadChar(c: char)
  {
    'a' <= c <= 'z' || '0' <= c <= '9'
  }

  /** `[a-z0-9\-_ ]`: the characters allowed after the first one. */
  predicate IsTailChar(c: char)
  {
    IsLeadChar(c) || c == '-' || c == '_' || c == ' '
  }

  /** Automaton states: nothing read yet, inside the starred tail (accepting), or failed. */
  datatype State = Start | Tail | Dead

  function Step(q: State, c: char): State
  {
    match q
    case Start => if IsLeadChar(c) then Tail else Dead
    case Tail => if IsTailChar(c) then Tail else Dead
    case Dead => Dead
  }

  function Run(q: State, s: string): State
    decreases |s|
  {
    if s == [] then q else Run(Step(q, s[0]), s[1..])
  }

  /** `expRe.MatchString(s)`. */
  predicate MatchString(s: string)
  {
    Run(Start, s) == Tail
  }

  /** Once failed, the automaton never recovers. */
  lemma {:induction false} DeadIsFinal(s: string)
    ensures Run(Dead, s) == Dead
    decreases |s|
  {
    if s != [] {
      DeadIsFinal(s[1..]);
    }
  }

  /** From the accepting state, the rest is accepted iff every character is a tail character. */
  lemma {:induction false} TailRunAccepts(s: string)
    ensures Run(Tail, s) == Tail <==> forall i :: 0 <= i < |s| ==> IsTailChar(s[i])
    decreases |s|
  {
    if s != [] {
      if IsTailChar(s[0]) {
        TailRunAccepts(s[1..]);
        assert forall i :: 1 <= i < |s| ==> s[i] == s[1..][i - 1];
      } else {
        DeadIsFinal(s[1..]);
      }
    }
  }

  /**
   * The grammar in plain terms: a name is accepted iff it is non-empty, its
   * first character is a lower-case ASCII letter or a digit, and every later
   * character is one of those, a hyphen, an underscore or a space.
   */
  lemma MatchStringIff(s: string)
    ensures MatchString(s) <==>
              |s| > 0 && IsLeadChar(s[0]) && forall i :: 1 <= i < |s| ==> IsTailChar(s[i])
  {
    if s != [] {
      if IsLeadChar(s[0]) {
        TailRunAccepts(s[1..]);
        assert forall i :: 1 <= i < |s| ==> s[i] == s[1..][i - 1];
      } else {
        DeadIsFinal(s[1..]);
      }
    }
  }

  /** The empty string and any string holding an upper-case ASCII letter anywhere are rejected. */
  lemma RejectsEmptyAndUppercase(s: string, k: nat)
    requires s == [] || (k < |s| && 'A' <= s[k] <= 'Z')
    ensures !MatchString(s)
  {
    MatchStringIff(s);
  }

  /** A name may not start with a hyphen, an underscore or a space, although each may follow. */
  lemma RejectsSeparatorFirst(s: string)
    requires |s| > 0 && (s[0] == '-' || s[0] == '_' || s[0] == ' ')
    ensures !MatchString(s)
    ensures MatchString("a" + s) <==> forall i :: 0 <= i < |s| ==> IsTailChar(s[i])
  {
    MatchStringIff(s);
    var t := "a" + s;
    MatchStringIff(t);
    assert forall i :: 1 <= i < |t| ==> t[i] == s[i - 1];
  }
}
