/** Session keys: eight symbols drawn from a 32-symbol alphabet that leaves out
    the characters easily confused when a key is read aloud or copied by hand. */
module Keys {
  import opened Text

  const Alphabet: string := "ABCDEFGHJKLMNPQRSTUVWXYZ23456789"
  const KeyLength: nat := 8

  /** A well-formed key: exactly eight symbols, each from the alphabet. */
  predicate IsKey(k: string) {
    |k| == KeyLength && forall i :: 0 <= i < |k| ==> k[i] in Alphabet
  }

  /** The random draws one key needs: `Math.floor(Math.random() * 32)` eight
      times, so eight indices into the alphabet. */
  predicate ValidPicks(picks: seq<nat>) {
    |picks| == KeyLength && forall i :: 0 <= i < |picks| ==> picks[i] < |Alphabet|
  }

  /** Each symbol of `s` is smaller than the next. */
  predicate Ascending(s: string) {
    forall i :: 0 <= i < |s| - 1 ==> s[i] < s[i + 1]
  }

  lemma {:induction false} AscendingIsDistinct(s: string)
    requires Ascending(s)
    ensures forall i, j :: 0 <= i < j < |s| ==> s[i] < s[j]
  {
    if |s| > 1 {
      AscendingIsDistinct(s[1..]);
      forall i, j | 0 <= i < j < |s| ensures s[i] < s[j] {
        if i > 0 {
          assert s[i] == s[1..][i - 1] && s[j] == s[1..][j - 1];
        } else if j > 1 {
          assert s[1] == s[1..][0] && s[j] == s[1..][j - 1];
        }
      }
    }
  }

  const Letters: string := "ABCDEFGHJKLMNPQRSTUVWXYZ"
  const Digits: string := "23456789"

  lemma AlphabetHalves()
    ensures Alphabet == Letters + Digits
    ensures |Alphabet| == 32
    ensures Ascending(Letters) && Ascending(Digits)
    ensures Letters[0] == 'A' && Letters[|Letters| - 1] == 'Z'
    ensures Digits[0] == '2' && Digits[|Digits| - 1] == '9'
  {
  }

  /** The alphabet has 32 distinct symbols. */
  lemma AlphabetDistinct()
    ensures |Alphabet| == 32
    ensures forall i, j :: 0 <= i < j < |Alphabet| ==> Alphabet[i] != Alphabet[j]
  {
    AlphabetHalves();
    AscendingIsDistinct(Letters);
    AscendingIsDistinct(Digits);
    var n := |Letters|;
    forall i, j | 0 <= i < j < |Alphabet| ensures Alphabet[i] != Alphabet[j] {
      if j < n {
        assert Alphabet[i] == Letters[i] && Alphabet[j] == Letters[j];
      } else if i >= n {
        assert Alphabet[i] == Digits[i - n] && Alphabet[j] == Digits[j - n];
      } else {
        assert Alphabet[i] == Letters[i] >= Letters[0];
        assert Alphabet[j] == Digits[j - n] <= Digits[|Digits| - 1];
      }
    }
  }

  /** Every symbol is an upper-case ASCII letter or a digit from 2 to 9, and
      none is `0`, `O`, `1` or `I`. */
  lemma AlphabetSymbols()
    ensures forall c :: c in Alphabet ==> ('A' <= c <= 'Z') || ('2' <= c <= '9')
    ensures '0' !in Alphabet && 'O' !in Alphabet && '1' !in Alphabet && 'I' !in Alphabet
  {
    AlphabetHalves();
    AscendingIsDistinct(Letters);
    AscendingIsDistinct(Digits);
    var n := |Letters|;
    forall c | c in Alphabet ensures ('A' <= c <= 'Z') || ('2' <= c <= '9') {
      var i :| 0 <= i < |Alphabet| && Alphabet[i] == c;
      if i < n {
        assert c == Letters[i] && Letters[0] <= Letters[i] <= Letters[n - 1];
      } else {
        assert c == Digits[i - n] && Digits[0] <= Digits[i - n] <= Digits[|Digits| - 1];
      }
    }
    assert Letters[12] == 'N' && Letters[13] == 'P';
    assert Letters[7] == 'H' && Letters[8] == 'J';
  }

  /** Every symbol is drawn by exactly one index, so uniform draws give every
      symbol the same chance. */
  lemma EachSymbolHasOneIndex(c: char)
    requires c in Alphabet
    ensures exists i :: 0 <= i < |Alphabet| && Alphabet[i] == c
    ensures forall i, j :: 0 <= i < |Alphabet| && 0 <= j < |Alphabet| && Alphabet[i] == c && Alphabet[j] == c ==> i == j
  {
    AlphabetDistinct();
  }

  /** The key the draws `picks` spell. */
  function KeyOf(picks: seq<nat>): (k: string)
    requires ValidPicks(picks)
    ensures IsKey(k)
  {
    seq(KeyLength, i requires 0 <= i < KeyLength => Alphabet[picks[i]])
  }

  /** `generateKey`: appends one alphabet symbol per draw, eight times. */
  method GenerateKey(picks: seq<nat>) returns (key: string)
    requires ValidPicks(picks)
    ensures IsKey(key)
    ensures forall i :: 0 <= i < KeyLength ==> key[i] == Alphabet[picks[i]]
    ensures key == KeyOf(picks)
  {
    key := "";
    for i := 0 to KeyLength
      invariant |key| == i
      invariant forall j :: 0 <= j < i ==> key[j] == Alphabet[picks[j]]
    {
      key := key + [Alphabet[picks[i]]];
    }
  }

  /** Each alphabet symbol is its own upper case and is not white space. */
  lemma SymbolIsUpperAndVisible(c: char)
    requires c in Alphabet
    ensures UpperAscii(c) == c && !IsJsSpace(c)
  {
    AlphabetSymbols();
  }

  /** Typing a key in any letter case, with white space around it, and then
      trimming and upper-casing the entry, as the join form does, gives the key
      back. */
  lemma KeyEntryNormalises(k: string, typed: string, before: string, after: string)
    requires IsKey(k)
    requires |typed| == |k| && forall i :: 0 <= i < |k| ==> UpperAscii(typed[i]) == k[i]
    requires AllSpace(before) && AllSpace(after)
    ensures ToUpper(Trim(before + typed + after)) == k
  {
    forall i | 0 <= i < |typed|
      ensures !IsJsSpace(typed[i])
    {
      SymbolIsUpperAndVisible(k[i]);
    }
    var s := before + typed + after;
    assert typed == s[|before|..|before| + |typed|];
    assert s[..|before|] == before && s[|before| + |typed|..] == after;
    TrimUnique(typed, s);
  }
}
