/**
 * The answer key of the quiz: the dictionary `alpha2num` that `MainWindow`
 * builds from the alphabet string by enumerating it from 1 (app.py:33).
 */
module AnswerKey {

  /**
   * The alphabet string the key is enumerated from, "ABCDEFGHIJKLMNOPQRSTUVWXYZ"
   * (see AlphabetIsLiteral), written by position so that proofs about it
   * reason about positions rather than about 26 separate characters.
   */
  function Alphabet(): string {
    seq(26, i requires 0 <= i < 26 => ('A' as int + i) as char)
  }

  predicate IsLetter(c: char) {
    'A' <= c <= 'Z'
  }

  predicate Distinct(s: string) {
    forall i, j :: 0 <= i < j < |s| ==> s[i] != s[j]
  }

  /**
   * The dictionary comprehension `{v: k for k, v in enumerate(s, start)}`:
   * each character of `s` is mapped to its position counted from `start`,
   * a later occurrence overwriting an earlier one.
   */
  function KeyFrom(s: string, start: int): map<char, int>
    decreases |s|
  {
    if s == [] then map[]
    else KeyFrom(s[..|s| - 1], start)[s[|s| - 1] := start + |s| - 1]
  }

  /** `alpha2num`: 'A' -> 1, ..., 'Z' -> 26. */
  function Alpha2Num(): map<char, int> {
    KeyFrom(Alphabet(), 1)
  }

  /** The alphabet string is the literal the source enumerates. */
  lemma AlphabetIsLiteral()
    ensures Alphabet() == "ABCDEFGHIJKLMNOPQRSTUVWXYZ"
  {
  }

  /** Each position of the alphabet holds a letter, in ascending order, once. */
  lemma AlphabetIsAscending()
    ensures |Alphabet()| == 26
    ensures forall i :: 0 <= i < |Alphabet()| ==> IsLetter(Alphabet()[i]) && Alphabet()[i] as int == 'A' as int + i
    ensures forall c :: c in Alphabet() <==> IsLetter(c)
    ensures Distinct(Alphabet())
  {
    forall c | IsLetter(c) ensures c in Alphabet() {
      assert Alphabet()[c as int - 'A' as int] == c;
    }
  }

  /** Enumerating a string without repeats gives every character its own position. */
  lemma {:induction false} KeyFromEnumerates(s: string, start: int)
    requires Distinct(s)
    ensures KeyFrom(s, start).Keys == set c | c in s
    ensures forall i :: 0 <= i < |s| ==> KeyFrom(s, start)[s[i]] == start + i
  {
    if s != [] {
      var p := s[..|s| - 1];
      KeyFromEnumerates(p, start);
      assert s == p + [s[|s| - 1]];
      forall i | 0 <= i < |s|
        ensures KeyFrom(s, start)[s[i]] == start + i
      {
        if i < |s| - 1 {
          assert p[i] == s[i];
        }
      }
    }
  }

  /** The key is total over the 26 letters and maps each to its alphabet position. */
  lemma Alpha2NumIsAlphabetPosition()
    ensures forall c :: c in Alpha2Num() <==> IsLetter(c)
    ensures forall c :: IsLetter(c) ==> Alpha2Num()[c] == c as int - 'A' as int + 1
    ensures forall i :: 0 <= i < |Alphabet()| ==> Alphabet()[i] in Alpha2Num() && Alpha2Num()[Alphabet()[i]] == i + 1
  {
    AlphabetIsAscending();
    KeyFromEnumerates(Alphabet(), 1);
    forall c | IsLetter(c)
      ensures c in Alpha2Num() && Alpha2Num()[c] == c as int - 'A' as int + 1
    {
      var i := c as int - 'A' as int;
      assert Alphabet()[i] == c;
    }
  }

  /** The key is a bijection from the 26 letters onto exactly 1..26. */
  lemma Alpha2NumIsBijection()
    ensures forall a, b :: a in Alpha2Num() && b in Alpha2Num() && Alpha2Num()[a] == Alpha2Num()[b] ==> a == b
    ensures forall n :: n in Alpha2Num().Values <==> 1 <= n <= 26
  {
    Alpha2NumIsAlphabetPosition();
    forall n | 1 <= n <= 26
      ensures n in Alpha2Num().Values
    {
      var c := ('A' as int + n - 1) as char;
      assert IsLetter(c) && Alpha2Num()[c] == n;
    }
  }
}
