/** The keyword recogniser: a hash with chains threaded through parallel arrays over an overlapping
    text.  It gives the same answer as a linear scan of the keywords, for every input. */
module Keywords {
  import opened TokenCodes
  import opened KeywordTables
  import opened KeywordIndex

  // ---------------------------------------------------------------------------------------------
  // What recognising a keyword means

  /** b & ~0x20: the two cases of a letter fall together, and 0x7F falls on the underscore. */
  function Fold(b: nat): nat {
    if (b / 32) % 2 == 1 then b - 32 else b
  }

  /** The first n bytes spell keyword k, in any mixture of cases. */
  predicate Spells(z: seq<nat>, n: int, k: int)
    requires n <= |z| && 0 <= k < N_KEYWORD
  {
    n == ALen(k) && forall j :: 0 <= j < n ==>
      0 <= AOffset(k) + j < N_TEXT && Fold(z[j]) == ZText(AOffset(k) + j)
  }

  /** Looking through the keywords from k on, in order; `id` if there is none. */
  function Scan(z: seq<nat>, n: int, k: int, id: int): int
    requires n <= |z| && 0 <= k <= N_KEYWORD
    decreases N_KEYWORD - k
  {
    if k == N_KEYWORD then id
    else if Spells(z, n, k) then ACode(k)
    else Scan(z, n, k + 1, id)
  }

  /** charMap: the lower-case table of the library, which moves only the upper-case ASCII letters. */
  function CharMap(b: nat): nat {
    if 65 <= b <= 90 then b + 32 else b
  }

  /** ((CharMap(z[0])*4) ^ (CharMap(z[n-1])*3) ^ n) % 127 */
  function Hash(z: seq<nat>, n: int): int
    requires 2 <= n <= |z| && n < 0x8000_0000
    requires z[0] < 256 && z[n - 1] < 256
  {
    HashOf(CharMap(z[0]), CharMap(z[n - 1]), n)
  }

  /** The same from the letters at the ends, as machine words. */
  function HashOf(first: nat, last: nat, n: nat): int
    requires first < 0x8000_0000 && last < 0x8000_0000 && n < 0x8000_0000
  {
    MixedHash(first as bv32, last as bv32, n as bv32)
  }

  // ---------------------------------------------------------------------------------------------
  // The hash leads to every keyword

  /** A byte that folds to an upper-case letter is one of its two cases. */
  lemma FoldsToLetter(b: nat)
    requires b < 256 && 65 <= Fold(b) <= 90
    ensures CharMap(b) == Fold(b) + 32
  {
  }

  /** The first and the last of the bytes that spell keyword k are its ends, in one case or the other. */
  lemma SpelledEnds(z: seq<nat>, n: int, k: int)
    requires n <= |z| && 0 <= k < N_KEYWORD && Spells(z, n, k)
    requires forall j :: 0 <= j < |z| ==> z[j] < 256
    ensures n == ALen(k) && 2 <= n <= 17
    ensures CharMap(z[0]) == FirstLetter(k) && CharMap(z[n - 1]) == LastLetter(k)
    ensures 97 <= FirstLetter(k) <= 122 && 97 <= LastLetter(k) <= 122
  {
    hide FirstLetter, LastLetter, ZText, AOffset, ALen, Fold, CharMap;
    KeywordInText(k);
    var o := AOffset(k);
    KeywordBegins(k, o, ZText(o));
    KeywordEnds(k, o + n - 1, ZText(o + n - 1));
    assert Fold(z[0]) == ZText(o + 0) && Fold(z[n - 1]) == ZText(o + (n - 1));
    FoldsToLetter(z[0]);
    FoldsToLetter(z[n - 1]);
  }

  lemma HashWords(a: nat, b: nat, n: nat)
    requires 97 <= a <= 122 && 97 <= b <= 122 && 2 <= n <= 17
    ensures HashOf(a, b, n) == MixedHash(LetterWord(a), LetterWord(b), LengthWord(n))
  {
    hide LetterWord, LengthWord, MixedHash;
    LetterBits(a);
    LetterBits(b);
    LengthBits(n);
  }

  /** Bytes that spell keyword k hash to its chain. */
  lemma SpelledHash(z: seq<nat>, n: int, k: int)
    requires n <= |z| && 0 <= k < N_KEYWORD && Spells(z, n, k)
    requires forall j :: 0 <= j < |z| ==> z[j] < 256
    ensures 2 <= n < 0x8000_0000 && Hash(z, n) == HashAt(k)
  {
    hide Spells, FirstLetter, LastLetter, HashAt, ALen, LetterWord, LengthWord, MixedHash, CharMap, HashOf;
    SpelledEnds(z, n, k);
    HashWords(CharMap(z[0]), CharMap(z[n - 1]), n);
    KeywordHash(k, FirstLetter(k), LastLetter(k), n);
  }

  /** The ends of the bytes decide which keyword they spell. */
  lemma SpelledSignature(z: seq<nat>, n: int, k: int)
    requires n <= |z| && 0 <= k < N_KEYWORD && Spells(z, n, k)
    ensures 2 <= n
    ensures SignatureIndex(((Fold(z[0]) * 100 + Fold(z[1])) * 100 + Fold(z[n - 2])) * 100 + Fold(z[n - 1])) == k
  {
    hide ZText, AOffset, ALen, SignatureIndex;
    KeywordInText(k);
    var o := AOffset(k);
    assert Fold(z[0]) == ZText(o + 0) && Fold(z[1]) == ZText(o + 1);
    assert Fold(z[n - 2]) == ZText(o + (n - 2)) && Fold(z[n - 1]) == ZText(o + (n - 1));
    SignatureDecides(k, o, n);
  }

  /** At most one keyword is spelled by any bytes. */
  lemma SpellsOne(z: seq<nat>, n: int, k: int, m: int)
    requires n <= |z| && 0 <= k < N_KEYWORD && 0 <= m < N_KEYWORD
    requires Spells(z, n, k) && Spells(z, n, m)
    ensures k == m
  {
    SpelledSignature(z, n, k);
    SpelledSignature(z, n, m);
  }

  /** A linear scan finds the keyword that is spelled, wherever it starts before it. */
  lemma {:induction false} ScanFinds(z: seq<nat>, n: int, j: int, k: int, id: int)
    requires n <= |z| && 0 <= j <= k < N_KEYWORD && Spells(z, n, k)
    ensures Scan(z, n, j, id) == ACode(k)
    decreases k - j
  {
    if Spells(z, n, j) {
      SpellsOne(z, n, j, k);
    } else {
      ScanFinds(z, n, j + 1, k, id);
    }
  }

  lemma {:induction false} ScanMisses(z: seq<nat>, n: int, j: int, id: int)
    requires n <= |z| && 0 <= j <= N_KEYWORD
    requires forall k :: j <= k < N_KEYWORD ==> !Spells(z, n, k)
    ensures Scan(z, n, j, id) == id
    decreases N_KEYWORD - j
  {
    if j < N_KEYWORD {
      ScanMisses(z, n, j + 1, id);
    }
  }

  // ---------------------------------------------------------------------------------------------
  // The recogniser

  /** The comparison loop: whether the bytes spell keyword i, given that the lengths agree. */
  method Compare(z: seq<nat>, n: int, i: int) returns (same: bool)
    requires 0 <= i < N_KEYWORD && n == ALen(i) && n <= |z|
    ensures same == Spells(z, n, i)
  {
    KeywordInText(i);
    var j := 0;
    while j < n && Fold(z[j]) == ZText(AOffset(i) + j)
      invariant 0 <= j <= n
      invariant forall m :: 0 <= m < j ==> Fold(z[m]) == ZText(AOffset(i) + m)
    {
      j := j + 1;
    }
    same := n <= j;
  }

  /** keywordCode: returns n, and in code' the code of the keyword spelled by the first n bytes, or
      the incoming code if they spell none. */
  method KeywordCode(z: seq<nat>, n: int, code: int) returns (r: int, code': int)
    requires n <= |z| && n < 0x8000_0000
    requires forall j :: 0 <= j < |z| ==> z[j] < 256
    ensures r == n
    ensures code' == Scan(z, n, 0, code)
  {
    code' := code;
    if 2 <= n {
      var h := Hash(z, n);
      HeadInRange(h);
      var i := AHash(h) - 1;
      assert forall k :: 0 <= k < N_KEYWORD && Spells(z, n, k) ==> Reaches(i, k) by {
        forall k | 0 <= k < N_KEYWORD && Spells(z, n, k) ensures Reaches(i, k) {
          SpelledHash(z, n, k);
          OnItsChain(k);
        }
      }
      while 0 <= i
        invariant -1 <= i < N_KEYWORD && code' == code
        invariant forall k :: 0 <= k < N_KEYWORD && Spells(z, n, k) ==> Reaches(i, k)
        decreases i
      {
        NextDescends(i);
        if ALen(i) == n {
          var same := Compare(z, n, i);
          if same {
            ScanFinds(z, n, 0, i, code);
            code' := ACode(i);
            return n, code';
          }
        }
        i := ANext(i) - 1;
      }
    }
    forall k | 0 <= k < N_KEYWORD ensures !Spells(z, n, k) {
      KeywordInText(k);
    }
    ScanMisses(z, n, 0, code);
    r := n;
  }

  /** sqlite3KeywordCode */
  method SqliteKeywordCode(z: seq<nat>, n: int) returns (id: int)
    requires n <= |z| && n < 0x8000_0000
    requires forall j :: 0 <= j < |z| ==> z[j] < 256
    ensures id == Scan(z, n, 0, TK_ID)
  {
    var _, code := KeywordCode(z, n, TK_ID);
    id := code;
  }

  /** What the scan answers, both ways: the code of a keyword exactly if it is the one spelled. */
  lemma ScanDecides(z: seq<nat>, n: int, id: int)
    requires n <= |z|
    ensures forall k :: 0 <= k < N_KEYWORD && Spells(z, n, k) ==> Scan(z, n, 0, id) == ACode(k)
    ensures (forall k :: 0 <= k < N_KEYWORD ==> !Spells(z, n, k)) ==> Scan(z, n, 0, id) == id
  {
    forall k | 0 <= k < N_KEYWORD && Spells(z, n, k) ensures Scan(z, n, 0, id) == ACode(k) {
      ScanFinds(z, n, 0, k, id);
    }
    if forall k :: 0 <= k < N_KEYWORD ==> !Spells(z, n, k) {
      ScanMisses(z, n, 0, id);
    }
  }
}
