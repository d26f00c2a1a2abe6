/** Where the hash puts each keyword, and why no two keywords can match the same bytes. */
module KeywordIndex {
  import opened KeywordTables

  /** The word that the hash is a remainder of. */
  function MixedHash(first: bv32, last: bv32, n: bv32): int {
    (((first * 4) ^ (last * 3) ^ n) as int) % N_HASH
  }

  /** The machine words for the lengths of keywords. */
  function LengthWord(c: int): bv32
  {
    if c < 10 then
     if c < 6 then
      if c < 4 then if c < 3 then 2 else 3 else if c < 5 then 4 else 5
     else
      if c < 8 then if c < 7 then 6 else 7 else if c < 9 then 8 else 9
    else
     if c < 14 then
      if c < 12 then if c < 11 then 10 else 11 else if c < 13 then 12 else 13
     else
      if c < 16 then if c < 15 then 14 else 15 else if c < 17 then 16 else 17
  }

  /** The machine words for lower-case letters. */
  function LetterWord(c: int): bv32
  {
    if c < 110 then
     if c < 103 then
      if c < 100 then
       if c < 98 then 97 else if c < 99 then 98 else 99
      else
       if c < 101 then 100 else if c < 102 then 101 else 102
     else
      if c < 106 then
       if c < 104 then 103 else if c < 105 then 104 else 105
      else
       if c < 108 then if c < 107 then 106 else 107 else if c < 109 then 108 else 109
    else
     if c < 116 then
      if c < 113 then
       if c < 111 then 110 else if c < 112 then 111 else 112
      else
       if c < 114 then 113 else if c < 115 then 114 else 115
     else
      if c < 119 then
       if c < 117 then 116 else if c < 118 then 117 else 118
      else
       if c < 121 then if c < 120 then 119 else 120 else if c < 122 then 121 else 122
  }

  lemma LengthBits(c: nat)
    requires 2 <= c <= 17
    ensures c as bv32 == LengthWord(c)
  {
    assert c as bv32 ==
        (if c < 10 then
           if c < 6 then
             if c < 4 then
               if c < 3 then 2 else 3
             else
               if c < 5 then 4 else 5
           else
             if c < 8 then
               if c < 7 then 6 else 7
             else
               if c < 9 then 8 else 9
         else
           if c < 14 then
             if c < 12 then
               if c < 11 then 10 else 11
             else
               if c < 13 then 12 else 13
           else
             if c < 16 then
               if c < 15 then 14 else 15
             else
               if c < 17 then 16 else 17);
  }

  lemma LetterBits97(c: nat)
    requires 97 <= c < 106
    ensures c as bv32 ==
        (if c < 102 then
           if c < 100 then
             if c < 99 then if c < 98 then 97 else 98 else 99
           else
             if c < 101 then 100 else 101
         else
           if c < 104 then
             if c < 103 then 102 else 103
           else
             if c < 105 then 104 else 105)
  {
  }

  lemma LetterBits106(c: nat)
    requires 106 <= c < 115
    ensures c as bv32 ==
        (if c < 111 then
           if c < 109 then
             if c < 108 then if c < 107 then 106 else 107 else 108
           else
             if c < 110 then 109 else 110
         else
           if c < 113 then
             if c < 112 then 111 else 112
           else
             if c < 114 then 113 else 114)
  {
  }

  lemma LetterBits115(c: nat)
    requires 115 <= c < 123
    ensures c as bv32 ==
        (if c < 119 then
           if c < 117 then
             if c < 116 then 115 else 116
           else
             if c < 118 then 117 else 118
         else
           if c < 121 then
             if c < 120 then 119 else 120
           else
             if c < 122 then 121 else 122)
  {
  }

  lemma LetterBits(c: nat)
    requires 97 <= c <= 122
    ensures c as bv32 == LetterWord(c)
  {
    if c < 106 {
      LetterBits97(c);
    } else if c < 115 {
      LetterBits106(c);
    } else {
      LetterBits115(c);
    }
  }

  // ---------------------------------------------------------------------------------------------
  // Facts about the packed text

  /** Every keyword lies inside the text and is at least two characters long. */
  lemma KeywordInText(k: int)
    requires 0 <= k < N_KEYWORD
    ensures 0 <= AOffset(k) && 2 <= ALen(k) <= 17 && AOffset(k) + ALen(k) <= N_TEXT
  {
  }

  /** The first character of each keyword, in lower case. */
  function FirstLetter(k: int): int
  {
    if k < 54 then
     if k < 27 then
      if k < 14 then
       if k < 7 then
        if k < 3 then if k < 1 then 114 else 105 else if k < 4 then 100 else if k < 6 then 101 else 99
       else
        if k < 11 then
         if k < 8 then 107 else if k < 9 then 98 else 102
        else
         if k < 12 then 105 else if k < 13 then 114 else 101
      else
       if k < 20 then
        if k < 17 then
         if k < 15 then 105 else if k < 16 then 97 else 100
        else
         if k < 18 then 97 else if k < 19 then 115 else 116
       else
        if k < 23 then
         if k < 21 then 108 else if k < 22 then 116 else 101
        else
         if k < 24 then 100 else if k < 26 then 101 else 116
     else
      if k < 39 then
       if k < 32 then
        if k < 29 then if k < 28 then 97 else 111 else if k < 30 then 110 else if k < 31 then 97 else 114
       else
        if k < 36 then
         if k < 34 then 101 else if k < 35 then 115 else 105
        else
         if k < 37 then 116 else if k < 38 then 114 else 99
      else
       if k < 47 then
        if k < 43 then
         if k < 40 then 105 else if k < 42 then 111 else 115
        else
         if k < 45 then 116 else if k < 46 then 111 else 117
       else
        if k < 51 then
         if k < 48 then 113 else if k < 50 then 119 else 111
        else
         if k < 52 then 114 else if k < 53 then 97 else 104
    else
     if k < 84 then
      if k < 68 then
       if k < 59 then
        if k < 56 then if k < 55 then 103 else 117 else if k < 57 then 98 else if k < 58 then 105 else 114
       else
        if k < 65 then
         if k < 60 then 98 else if k < 64 then 110 else 108
        else
         if k < 66 then 99 else if k < 67 then 97 else 100
      else
       if k < 77 then
        if k < 74 then
         if k < 72 then 99 else if k < 73 then 100 else 105
        else
         if k < 75 then 106 else if k < 76 then 105 else 109
       else
        if k < 80 then
         if k < 78 then 112 else if k < 79 then 97 else 112
        else
         if k < 81 then 97 else if k < 83 then 118 else 108
     else
      if k < 104 then
       if k < 91 then
        if k < 88 then
         if k < 86 then 119 else if k < 87 then 114 else 97
        else
         if k < 89 then 114 else if k < 90 then 97 else 100
       else
        if k < 94 then
         if k < 92 then 97 else if k < 93 then 116 else 105
        else
         if k < 101 then 99 else if k < 102 then 112 else 100
      else
       if k < 113 then
        if k < 109 then
         if k < 105 then 105 else if k < 106 then 100 else 102
        else
         if k < 110 then 103 else if k < 111 then 98 else 105
       else
        if k < 120 then
         if k < 114 then 111 else if k < 118 then 114 else 117
        else
         if k < 122 then 118 else if k < 123 then 105 else 97
  }

  /** The last character of each keyword, in lower case. */
  function LastLetter(k: int): int
  {
    if k < 60 then
     if k < 31 then
      if k < 13 then
       if k < 6 then
        if k < 3 then
         if k < 1 then 120 else if k < 2 then 100 else 120
        else
         if k < 4 then 99 else if k < 5 then 101 else 104
       else
        if k < 9 then
         if k < 7 then 107 else if k < 8 then 121 else 101
        else
         if k < 11 then if k < 10 then 110 else 114 else if k < 12 then 101 else 112
      else
       if k < 21 then
        if k < 17 then
         if k < 14 then 110 else if k < 16 then 100 else 101
        else
         if k < 19 then if k < 18 then 115 else 116 else if k < 20 then 101 else 116
       else
        if k < 25 then
         if k < 22 then 110 else if k < 23 then 100 else 101
        else
         if k < 29 then if k < 26 then 116 else 110 else if k < 30 then 108 else 114
     else
      if k < 46 then
       if k < 39 then
        if k < 36 then
         if k < 33 then 101 else if k < 34 then 115 else 116
        else
         if k < 37 then 114 else if k < 38 then 115 else 116
       else
        if k < 42 then
         if k < 40 then 111 else if k < 41 then 116 else 102
        else
         if k < 44 then if k < 43 then 116 else 121 else if k < 45 then 112 else 114
      else
       if k < 53 then
        if k < 49 then
         if k < 47 then 101 else if k < 48 then 121 else 116
        else
         if k < 51 then if k < 50 then 104 else 114 else if k < 52 then 101 else 104
       else
        if k < 56 then
         if k < 54 then 103 else if k < 55 then 112 else 101
        else
         if k < 58 then if k < 57 then 110 else 114 else if k < 59 then 101 else 110
    else
     if k < 94 then
      if k < 78 then
       if k < 67 then
        if k < 63 then
         if k < 61 then 108 else if k < 62 then 116 else 111
        else
         if k < 64 then 108 else if k < 66 then 101 else 99
       else
        if k < 74 then
         if k < 72 then 101 else if k < 73 then 104 else 101
        else
         if k < 76 then if k < 75 then 110 else 116 else if k < 77 then 104 else 110
      else
       if k < 85 then
        if k < 81 then
         if k < 79 then 101 else if k < 80 then 97 else 116
        else
         if k < 83 then if k < 82 then 115 else 108 else if k < 84 then 116 else 110
       else
        if k < 89 then
         if k < 87 then 101 else if k < 88 then 114 else 101
        else
         if k < 92 then if k < 90 then 100 else 116 else if k < 93 then 111 else 110
     else
      if k < 109 then
       if k < 102 then
        if k < 98 then
         if k < 95 then 116 else if k < 96 then 110 else 116
        else
         if k < 100 then if k < 99 then 115 else 112 else if k < 101 then 101 else 121
       else
        if k < 105 then
         if k < 103 then 100 else if k < 104 then 116 else 115
        else
         if k < 107 then if k < 106 then 112 else 108 else if k < 108 then 109 else 108
      else
       if k < 117 then
        if k < 112 then
         if k < 110 then 98 else if k < 111 then 121 else 102
        else
         if k < 114 then if k < 113 then 108 else 114 else if k < 116 then 116 else 107
       else
        if k < 120 then
         if k < 118 then 119 else if k < 119 then 110 else 103
        else
         if k < 122 then if k < 121 then 109 else 119 else if k < 123 then 121 else 108
  }

  /** Keywords begin with a letter. */
  lemma KeywordBegins(k: int, o: int, a: int)
    requires 0 <= k < N_KEYWORD && o == AOffset(k) && 0 <= o < N_TEXT && a == ZText(o)
    ensures a + 32 == FirstLetter(k) && 65 <= a <= 90
  {
  }

  lemma KeywordEnds0(k: int, e: int, b: int)
    requires 0 <= k < 62 && e == AOffset(k) + ALen(k) - 1 && 0 <= e < N_TEXT && b == ZText(e)
    ensures b + 32 == LastLetter(k) && 65 <= b <= 90
  {
  }

  lemma KeywordEnds62(k: int, e: int, b: int)
    requires 62 <= k < N_KEYWORD && e == AOffset(k) + ALen(k) - 1 && 0 <= e < N_TEXT && b == ZText(e)
    ensures b + 32 == LastLetter(k) && 65 <= b <= 90
  {
  }

  /** Keywords end with a letter. */
  lemma KeywordEnds(k: int, e: int, b: int)
    requires 0 <= k < N_KEYWORD && e == AOffset(k) + ALen(k) - 1 && 0 <= e < N_TEXT && b == ZText(e)
    ensures b + 32 == LastLetter(k) && 65 <= b <= 90
  {
    if k < 62 {
      KeywordEnds0(k, e, b);
    } else {
      KeywordEnds62(k, e, b);
    }
  }

  // ---------------------------------------------------------------------------------------------
  // Every keyword is on the chain that its hash selects

  /** The chain of each keyword. */
  function HashAt(k: int): int
  {
    if k < 62 then
     if k < 31 then
      if k < 15 then
       if k < 7 then
        if k < 3 then
         if k < 1 then 40 else if k < 2 then 16 else 74
        else
         if k < 5 then if k < 4 then 62 else 62 else if k < 6 then 41 else 73
       else
        if k < 11 then
         if k < 9 then if k < 8 then 69 else 34 else if k < 10 then 86 else 78
        else
         if k < 13 then if k < 12 then 14 else 31 else if k < 14 then 90 else 16
      else
       if k < 23 then
        if k < 19 then
         if k < 17 then if k < 16 then 44 else 56 else if k < 18 then 96 else 23
        else
         if k < 21 then if k < 20 then 123 else 105 else if k < 22 then 31 else 60
       else
        if k < 27 then
         if k < 25 then if k < 24 then 54 else 64 else if k < 26 then 79 else 18
        else
         if k < 29 then if k < 28 then 73 else 117 else if k < 30 then 124 else 88
     else
      if k < 46 then
       if k < 38 then
        if k < 34 then
         if k < 32 then 99 else if k < 33 then 51 else 76
        else
         if k < 36 then if k < 35 then 26 else 114 else if k < 37 then 2 else 28
       else
        if k < 42 then
         if k < 40 then if k < 39 then 91 else 110 else if k < 41 then 103 else 13
        else
         if k < 44 then if k < 43 then 20 else 51 else if k < 45 then 5 else 105
      else
       if k < 54 then
        if k < 50 then
         if k < 48 then if k < 47 then 126 else 43 else if k < 49 then 8 else 97
        else
         if k < 52 then if k < 51 then 112 else 97 else if k < 53 then 59 else 20
       else
        if k < 58 then
         if k < 56 then if k < 55 then 74 else 126 else if k < 57 then 72 else 120
        else
         if k < 60 then if k < 59 then 111 else 70 else if k < 61 then 124 else 104
    else
     if k < 93 then
      if k < 77 then
       if k < 69 then
        if k < 65 then
         if k < 63 then 120 else if k < 64 then 121 else 28
        else
         if k < 67 then if k < 66 then 37 else 47 else if k < 68 then 58 else 40
       else
        if k < 73 then
         if k < 71 then if k < 70 then 37 else 38 else if k < 72 then 48 else 47
        else
         if k < 75 then if k < 74 then 3 else 103 else if k < 76 then 0 else 10
      else
       if k < 85 then
        if k < 81 then
         if k < 79 then if k < 78 then 15 else 45 else if k < 80 then 102 else 94
        else
         if k < 83 then if k < 82 then 8 else 28 else if k < 84 then 106 else 19
       else
        if k < 89 then
         if k < 87 then if k < 86 then 119 else 98 else if k < 88 then 88 else 97
        else
         if k < 91 then if k < 90 then 44 else 76 else if k < 92 then 86 else 32
     else
      if k < 108 then
       if k < 100 then
        if k < 96 then
         if k < 94 then 109 else if k < 95 then 85 else 65
        else
         if k < 98 then if k < 97 then 87 else 89 else if k < 99 then 81 else 78
       else
        if k < 104 then
         if k < 102 then if k < 101 then 48 else 45 else if k < 103 then 53 else 69
        else
         if k < 106 then if k < 105 then 1 else 69 else if k < 107 then 89 else 92
      else
       if k < 116 then
        if k < 112 then
         if k < 110 then if k < 109 then 89 else 63 else if k < 111 then 98 else 21
        else
         if k < 114 then if k < 113 then 103 else 112 else if k < 115 then 29 else 18
       else
        if k < 120 then
         if k < 118 then if k < 117 then 2 else 47 else if k < 119 then 28 else 101
        else
         if k < 122 then if k < 121 then 26 else 58 else if k < 123 then 71 else 68
  }

  lemma KeywordHash0(k: int, a: int, b: int, n: int)
    requires 0 <= k < 12 && a == FirstLetter(k) && b == LastLetter(k) && n == ALen(k)
    ensures MixedHash(LetterWord(a), LetterWord(b), LengthWord(n)) == HashAt(k)
  {
    assert MixedHash(114, 120, 7) == 40;
    assert MixedHash(105, 100, 7) == 16;
    assert MixedHash(105, 120, 5) == 74;
    assert MixedHash(100, 99, 4) == 62;
    assert MixedHash(101, 101, 6) == 62;
    assert MixedHash(101, 104, 4) == 41;
    assert MixedHash(99, 107, 5) == 73;
    assert MixedHash(107, 121, 3) == 69;
    assert MixedHash(98, 101, 6) == 34;
    assert MixedHash(102, 110, 7) == 86;
    assert MixedHash(102, 114, 3) == 78;
    assert MixedHash(105, 101, 6) == 14;
  }

  lemma KeywordHash12(k: int, a: int, b: int, n: int)
    requires 12 <= k < 24 && a == FirstLetter(k) && b == LastLetter(k) && n == ALen(k)
    ensures MixedHash(LetterWord(a), LetterWord(b), LengthWord(n)) == HashAt(k)
  {
    assert MixedHash(114, 112, 6) == 31;
    assert MixedHash(101, 110, 7) == 90;
    assert MixedHash(105, 100, 7) == 16;
    assert MixedHash(97, 100, 3) == 44;
    assert MixedHash(100, 101, 8) == 56;
    assert MixedHash(97, 115, 2) == 96;
    assert MixedHash(115, 116, 6) == 23;
    assert MixedHash(116, 101, 5) == 123;
    assert MixedHash(108, 116, 4) == 105;
    assert MixedHash(116, 110, 4) == 31;
    assert MixedHash(101, 100, 3) == 60;
    assert MixedHash(100, 101, 10) == 54;
  }

  lemma KeywordHash24(k: int, a: int, b: int, n: int)
    requires 24 <= k < 36 && a == FirstLetter(k) && b == LastLetter(k) && n == ALen(k)
    ensures MixedHash(LetterWord(a), LetterWord(b), LengthWord(n)) == HashAt(k)
  {
    assert MixedHash(101, 101, 4) == 64;
    assert MixedHash(101, 116, 6) == 79;
    assert MixedHash(116, 110, 11) == 18;
    assert MixedHash(97, 110, 6) == 73;
    assert MixedHash(111, 110, 2) == 117;
    assert MixedHash(110, 108, 7) == 124;
    assert MixedHash(97, 114, 5) == 88;
    assert MixedHash(114, 101, 5) == 99;
    assert MixedHash(101, 101, 9) == 51;
    assert MixedHash(101, 115, 6) == 76;
    assert MixedHash(115, 116, 9) == 26;
    assert MixedHash(105, 116, 9) == 114;
  }

  lemma KeywordHash36(k: int, a: int, b: int, n: int)
    requires 36 <= k < 48 && a == FirstLetter(k) && b == LastLetter(k) && n == ALen(k)
    ensures MixedHash(LetterWord(a), LetterWord(b), LengthWord(n)) == HashAt(k)
  {
    assert MixedHash(116, 114, 7) == 2;
    assert MixedHash(114, 115, 10) == 28;
    assert MixedHash(99, 116, 10) == 91;
    assert MixedHash(105, 111, 4) == 110;
    assert MixedHash(111, 116, 6) == 103;
    assert MixedHash(111, 102, 2) == 13;
    assert MixedHash(115, 116, 3) == 20;
    assert MixedHash(116, 121, 9) == 51;
    assert MixedHash(116, 112, 4) == 5;
    assert MixedHash(111, 114, 2) == 105;
    assert MixedHash(117, 101, 6) == 126;
    assert MixedHash(113, 121, 5) == 43;
  }

  lemma KeywordHash48(k: int, a: int, b: int, n: int)
    requires 48 <= k < 60 && a == FirstLetter(k) && b == LastLetter(k) && n == ALen(k)
    ensures MixedHash(LetterWord(a), LetterWord(b), LengthWord(n)) == HashAt(k)
  {
    assert MixedHash(119, 116, 7) == 8;
    assert MixedHash(119, 104, 4) == 97;
    assert MixedHash(111, 114, 5) == 112;
    assert MixedHash(114, 101, 7) == 97;
    assert MixedHash(97, 104, 6) == 59;
    assert MixedHash(104, 103, 6) == 20;
    assert MixedHash(103, 112, 5) == 74;
    assert MixedHash(117, 101, 6) == 126;
    assert MixedHash(98, 110, 5) == 72;
    assert MixedHash(105, 114, 5) == 120;
    assert MixedHash(114, 101, 9) == 111;
    assert MixedHash(98, 110, 7) == 70;
  }

  lemma KeywordHash60(k: int, a: int, b: int, n: int)
    requires 60 <= k < 72 && a == FirstLetter(k) && b == LastLetter(k) && n == ALen(k)
    ensures MixedHash(LetterWord(a), LetterWord(b), LengthWord(n)) == HashAt(k)
  {
    assert MixedHash(110, 108, 7) == 124;
    assert MixedHash(110, 116, 3) == 104;
    assert MixedHash(110, 111, 2) == 120;
    assert MixedHash(110, 108, 4) == 121;
    assert MixedHash(108, 101, 4) == 28;
    assert MixedHash(99, 101, 7) == 37;
    assert MixedHash(97, 99, 3) == 47;
    assert MixedHash(100, 101, 6) == 58;
    assert MixedHash(99, 101, 4) == 40;
    assert MixedHash(99, 101, 6) == 38;
    assert MixedHash(99, 101, 12) == 48;
  }

  lemma KeywordHash72(k: int, a: int, b: int, n: int)
    requires 72 <= k < 84 && a == FirstLetter(k) && b == LastLetter(k) && n == ALen(k)
    ensures MixedHash(LetterWord(a), LetterWord(b), LengthWord(n)) == HashAt(k)
  {
    assert MixedHash(100, 104, 6) == 47;
    assert MixedHash(105, 101, 9) == 3;
    assert MixedHash(106, 110, 4) == 103;
    assert MixedHash(105, 116, 6) == 0;
    assert MixedHash(109, 104, 5) == 10;
    assert MixedHash(112, 110, 4) == 15;
    assert MixedHash(97, 101, 7) == 45;
    assert MixedHash(112, 97, 6) == 102;
    assert MixedHash(97, 116, 5) == 94;
    assert MixedHash(118, 115, 6) == 8;
    assert MixedHash(118, 108, 7) == 28;
    assert MixedHash(108, 116, 5) == 106;
  }

  lemma KeywordHash84(k: int, a: int, b: int, n: int)
    requires 84 <= k < 96 && a == FirstLetter(k) && b == LastLetter(k) && n == ALen(k)
    ensures MixedHash(LetterWord(a), LetterWord(b), LengthWord(n)) == HashAt(k)
  {
    assert MixedHash(119, 110, 4) == 19;
    assert MixedHash(119, 101, 5) == 119;
    assert MixedHash(114, 101, 6) == 98;
    assert MixedHash(97, 114, 5) == 88;
    assert MixedHash(114, 101, 7) == 97;
    assert MixedHash(97, 100, 3) == 44;
    assert MixedHash(100, 116, 7) == 76;
    assert MixedHash(97, 116, 13) == 86;
    assert MixedHash(116, 111, 2) == 32;
    assert MixedHash(105, 110, 2) == 109;
    assert MixedHash(99, 116, 4) == 85;
    assert MixedHash(99, 110, 6) == 65;
  }

  lemma KeywordHash96(k: int, a: int, b: int, n: int)
    requires 96 <= k < 108 && a == FirstLetter(k) && b == LastLetter(k) && n == ALen(k)
    ensures MixedHash(LetterWord(a), LetterWord(b), LengthWord(n)) == HashAt(k)
  {
    assert MixedHash(99, 116, 6) == 87;
    assert MixedHash(99, 116, 8) == 89;
    assert MixedHash(99, 115, 5) == 81;
    assert MixedHash(99, 112, 17) == 78;
    assert MixedHash(99, 101, 12) == 48;
    assert MixedHash(112, 121, 7) == 45;
    assert MixedHash(100, 100, 8) == 53;
    assert MixedHash(100, 116, 8) == 69;
    assert MixedHash(105, 115, 2) == 1;
    assert MixedHash(100, 112, 4) == 69;
    assert MixedHash(102, 108, 4) == 89;
    assert MixedHash(102, 109, 4) == 92;
  }

  lemma KeywordHash108(k: int, a: int, b: int, n: int)
    requires 108 <= k < 120 && a == FirstLetter(k) && b == LastLetter(k) && n == ALen(k)
    ensures MixedHash(LetterWord(a), LetterWord(b), LengthWord(n)) == HashAt(k)
  {
    assert MixedHash(102, 108, 4) == 89;
    assert MixedHash(103, 98, 4) == 63;
    assert MixedHash(98, 121, 2) == 98;
    assert MixedHash(105, 102, 2) == 21;
    assert MixedHash(105, 108, 6) == 103;
    assert MixedHash(111, 114, 5) == 112;
    assert MixedHash(114, 116, 8) == 29;
    assert MixedHash(114, 116, 5) == 18;
    assert MixedHash(114, 107, 8) == 2;
    assert MixedHash(114, 119, 3) == 47;
    assert MixedHash(117, 110, 5) == 28;
    assert MixedHash(117, 103, 5) == 101;
  }

  lemma KeywordHash120(k: int, a: int, b: int, n: int)
    requires 120 <= k < 124 && a == FirstLetter(k) && b == LastLetter(k) && n == ALen(k)
    ensures MixedHash(LetterWord(a), LetterWord(b), LengthWord(n)) == HashAt(k)
  {
    assert MixedHash(118, 109, 6) == 26;
    assert MixedHash(118, 119, 4) == 58;
    assert MixedHash(105, 121, 9) == 71;
    assert MixedHash(97, 108, 3) == 68;
  }

  /** The hash of each keyword, over its length and its ends in lower case. */
  lemma KeywordHash(k: int, a: int, b: int, n: int)
    requires 0 <= k < N_KEYWORD && a == FirstLetter(k) && b == LastLetter(k) && n == ALen(k)
    ensures MixedHash(LetterWord(a), LetterWord(b), LengthWord(n)) == HashAt(k)
  {
    if k < 12 {
      KeywordHash0(k, a, b, n);
    } else if k < 24 {
      KeywordHash12(k, a, b, n);
    } else if k < 36 {
      KeywordHash24(k, a, b, n);
    } else if k < 48 {
      KeywordHash36(k, a, b, n);
    } else if k < 60 {
      KeywordHash48(k, a, b, n);
    } else if k < 72 {
      KeywordHash60(k, a, b, n);
    } else if k < 84 {
      KeywordHash72(k, a, b, n);
    } else if k < 96 {
      KeywordHash84(k, a, b, n);
    } else if k < 108 {
      KeywordHash96(k, a, b, n);
    } else if k < 120 {
      KeywordHash108(k, a, b, n);
    } else {
      KeywordHash120(k, a, b, n);
    }
  }

  /** The keyword before k on its chain, or -1 if k comes first. */
  function Before(k: int): int
  {
    if k < 43 then
     if k < 21 then
      if k < 9 then
       if k < 4 then
        if k < 2 then if k < 1 then 68 else 14 else if k < 3 then 54 else 4
       else
        if k < 7 then if k < 6 then -1 else 27 else if k < 8 then 103 else -1
      else
       if k < 13 then
        if k < 11 then if k < 10 then 91 else 99 else if k < 12 then -1 else 21
       else
        if k < 16 then if k < 15 then -1 else 89 else if k < 20 then -1 else 45
     else
      if k < 34 then
       if k < 30 then
        if k < 27 then if k < 26 then -1 else 115 else if k < 29 then -1 else 60
       else
        if k < 32 then if k < 31 then 87 else -1 else if k < 33 then 43 else 90
      else
       if k < 38 then
        if k < 36 then if k < 35 then 120 else -1 else if k < 37 then 116 else 64
       else
        if k < 41 then if k < 40 then -1 else 74 else if k < 42 then -1 else 53
    else
     if k < 72 then
      if k < 57 then
       if k < 49 then
        if k < 47 then if k < 46 then -1 else 55 else if k < 48 then -1 else 81
       else
        if k < 51 then if k < 50 then 51 else 113 else if k < 52 then 88 else -1
      else
       if k < 66 then
        if k < 64 then if k < 58 then 62 else -1 else if k < 65 then 82 else 69
       else
        if k < 68 then if k < 67 then 72 else 121 else if k < 71 then -1 else 100
     else
      if k < 86 then
       if k < 78 then
        if k < 74 then if k < 73 then 117 else -1 else if k < 75 then 112 else -1
       else
        if k < 82 then if k < 79 then 101 else -1 else if k < 83 then 118 else -1
      else
       if k < 103 then
        if k < 97 then if k < 87 then 110 else -1 else if k < 98 then 106 else -1
       else
        if k < 106 then if k < 104 then 105 else -1 else if k < 107 then 108 else -1
  }

  /** Each keyword is first on its chain or follows a later keyword of the same chain. */
  lemma BeforeLinks(k: int, p: int)
    requires 0 <= k < N_KEYWORD && p == Before(k)
    ensures 0 <= HashAt(k) < N_HASH
    ensures if p < 0 then AHash(HashAt(k)) - 1 == k
            else k < p < N_KEYWORD && HashAt(p) == HashAt(k) && ANext(p) - 1 == k
  {
  }

  /** Chains descend, so every walk along one ends. */
  lemma NextDescends(i: int)
    requires 0 <= i < N_KEYWORD
    ensures -1 <= ANext(i) - 1 < i
  {
  }

  lemma HeadInRange(h: int)
    requires 0 <= h < N_HASH
    ensures -1 <= AHash(h) - 1 < N_KEYWORD
  {
  }

  /** Keyword k is met on the walk along a chain from position i. */
  predicate Reaches(i: int, k: int)
    requires -1 <= i < N_KEYWORD
    decreases i
  {
    0 <= i && (i == k || (NextDescends(i); Reaches(ANext(i) - 1, k)))
  }

  lemma {:induction false} ReachesNext(i: int, p: int)
    requires -1 <= i < N_KEYWORD && 0 <= p < N_KEYWORD && Reaches(i, p)
    requires 0 <= ANext(p) - 1
    ensures ANext(p) - 1 < N_KEYWORD && Reaches(i, ANext(p) - 1)
    decreases i
  {
    NextDescends(p);
    NextDescends(i);
    if i != p {
      ReachesNext(ANext(i) - 1, p);
    }
  }

  /** The walk along the chain of its hash meets every keyword. */
  lemma {:induction false} OnItsChain(k: int)
    requires 0 <= k < N_KEYWORD
    ensures 0 <= HashAt(k) < N_HASH && -1 <= AHash(HashAt(k)) - 1 < N_KEYWORD
    ensures Reaches(AHash(HashAt(k)) - 1, k)
    decreases N_KEYWORD - k
  {
    var p := Before(k);
    BeforeLinks(k, p);
    HeadInRange(HashAt(k));
    if 0 <= p {
      OnItsChain(p);
      ReachesNext(AHash(HashAt(p)) - 1, p);
    }
  }

  // ---------------------------------------------------------------------------------------------
  // No two keywords are spelled alike

  function SecondLetter(k: int): int
  {
    if k < 64 then
     if k < 29 then
      if k < 16 then
       if k < 7 then
        if k < 4 then
         if k < 1 then 69 else if k < 3 then 78 else 69
        else
         if k < 5 then 83 else if k < 6 then 65 else 72
       else
        if k < 12 then
         if k < 9 then 69 else if k < 11 then 79 else 71
        else
         if k < 14 then if k < 13 then 69 else 88 else if k < 15 then 78 else 68
      else
       if k < 22 then
        if k < 19 then
         if k < 17 then 65 else if k < 18 then 83 else 69
        else
         if k < 20 then 65 else if k < 21 then 69 else 72
       else
        if k < 25 then
         if k < 23 then 78 else if k < 24 then 69 else 76
        else
         if k < 27 then if k < 26 then 88 else 82 else if k < 28 then 67 else 78
     else
      if k < 46 then
       if k < 36 then
        if k < 32 then
         if k < 30 then 65 else if k < 31 then 76 else 65
        else
         if k < 34 then 88 else if k < 35 then 65 else 78
       else
        if k < 39 then
         if k < 37 then 82 else if k < 38 then 69 else 79
        else
         if k < 42 then if k < 40 then 78 else 70 else if k < 45 then 69 else 82
      else
       if k < 54 then
        if k < 50 then
         if k < 47 then 78 else if k < 48 then 85 else 73
        else
         if k < 52 then if k < 51 then 85 else 69 else if k < 53 then 84 else 65
       else
        if k < 57 then
         if k < 55 then 82 else if k < 56 then 80 else 69
        else
         if k < 60 then if k < 58 then 78 else 69 else if k < 63 then 79 else 85
    else
     if k < 93 then
      if k < 77 then
       if k < 70 then
        if k < 67 then
         if k < 65 then 73 else if k < 66 then 65 else 83
        else
         if k < 68 then 69 else if k < 69 then 65 else 79
       else
        if k < 73 then
         if k < 71 then 82 else if k < 72 then 85 else 69
        else
         if k < 75 then if k < 74 then 77 else 79 else if k < 76 then 78 else 65
      else
       if k < 86 then
        if k < 80 then
         if k < 78 then 76 else if k < 79 then 78 else 82
        else
         if k < 82 then if k < 81 then 66 else 65 else if k < 84 then 73 else 72
       else
        if k < 89 then
         if k < 87 then 69 else if k < 88 then 70 else 69
        else
         if k < 91 then if k < 90 then 78 else 69 else if k < 92 then 85 else 79
     else
      if k < 109 then
       if k < 102 then
        if k < 98 then
         if k < 94 then 78 else if k < 95 then 65 else 79
        else
         if k < 99 then 82 else if k < 101 then 85 else 82
       else
        if k < 105 then
         if k < 103 then 69 else if k < 104 then 73 else 83
        else
         if k < 107 then if k < 106 then 82 else 65 else if k < 108 then 82 else 85
      else
       if k < 116 then
        if k < 112 then
         if k < 110 then 76 else if k < 111 then 89 else 70
        else
         if k < 114 then if k < 113 then 83 else 82 else if k < 115 then 69 else 73
       else
        if k < 120 then
         if k < 118 then 79 else if k < 119 then 78 else 83
        else
         if k < 122 then if k < 121 then 65 else 73 else if k < 123 then 78 else 76
  }

  function PenultimateLetter(k: int): int
  {
    if k < 62 then
     if k < 33 then
      if k < 17 then
       if k < 10 then
        if k < 5 then
         if k < 3 then 69 else if k < 4 then 83 else 80
        else
         if k < 8 then if k < 7 then 67 else 69 else if k < 9 then 82 else 71
       else
        if k < 13 then
         if k < 11 then 79 else if k < 12 then 82 else 88
        else
         if k < 15 then if k < 14 then 73 else 65 else if k < 16 then 68 else 83
      else
       if k < 24 then
        if k < 20 then
         if k < 18 then 65 else if k < 19 then 67 else 76
        else
         if k < 22 then if k < 21 then 70 else 69 else if k < 23 then 78 else 76
       else
        if k < 29 then
         if k < 25 then 83 else if k < 26 then 80 else 79
        else
         if k < 31 then if k < 30 then 65 else 69 else if k < 32 then 83 else 86
     else
      if k < 48 then
       if k < 41 then
        if k < 36 then
         if k < 34 then 84 else if k < 35 then 78 else 67
        else
         if k < 39 then if k < 38 then 69 else 78 else if k < 40 then 84 else 69
       else
        if k < 44 then
         if k < 42 then 79 else if k < 43 then 69 else 82
        else
         if k < 46 then if k < 45 then 77 else 79 else if k < 47 then 85 else 82
      else
       if k < 55 then
        if k < 51 then
         if k < 49 then 85 else if k < 50 then 84 else 69
        else
         if k < 53 then if k < 52 then 83 else 67 else if k < 54 then 78 else 85
       else
        if k < 58 then
         if k < 56 then 84 else if k < 57 then 73 else 69
        else
         if k < 60 then if k < 59 then 86 else 69 else if k < 61 then 76 else 79
    else
     if k < 92 then
      if k < 78 then
       if k < 69 then
        if k < 65 then
         if k < 63 then 78 else if k < 64 then 76 else 75
        else
         if k < 67 then if k < 66 then 68 else 83 else if k < 68 then 84 else 83
       else
        if k < 74 then
         if k < 72 then 84 else if k < 73 then 67 else 84
        else
         if k < 76 then if k < 75 then 73 else 82 else if k < 77 then 67 else 65
      else
       if k < 85 then
        if k < 81 then
         if k < 79 then 90 else if k < 80 then 77 else 82
        else
         if k < 83 then if k < 82 then 69 else 65 else if k < 84 then 73 else 69
       else
        if k < 88 then
         if k < 86 then 82 else if k < 87 then 77 else 69
        else
         if k < 90 then if k < 89 then 67 else 78 else if k < 91 then 76 else 78
     else
      if k < 107 then
       if k < 99 then
        if k < 95 then
         if k < 93 then 84 else if k < 94 then 73 else 83
        else
         if k < 97 then if k < 96 then 77 else 73 else if k < 98 then 67 else 83
       else
        if k < 103 then
         if k < 101 then 77 else if k < 102 then 82 else 69
        else
         if k < 105 then if k < 104 then 67 else 73 else if k < 106 then 79 else 73
      else
       if k < 114 then
        if k < 110 then
         if k < 108 then 79 else if k < 109 then 76 else 79
        else
         if k < 112 then if k < 111 then 66 else 73 else if k < 113 then 76 else 69
       else
        if k < 119 then
         if k < 116 then if k < 115 then 67 else 72 else if k < 117 then 67 else 79
        else
         if k < 121 then if k < 120 then 78 else 85 else if k < 122 then 69 else 76
  }

  lemma KeywordSecond(k: int, o: int, a: int)
    requires 0 <= k < N_KEYWORD && o == AOffset(k) + 1 && 0 <= o < N_TEXT && a == ZText(o)
    ensures a == SecondLetter(k)
  {
  }

  lemma KeywordPenultimate(k: int, e: int, b: int)
    requires 0 <= k < N_KEYWORD && e == AOffset(k) + ALen(k) - 2 && 0 <= e < N_TEXT && b == ZText(e)
    ensures b == PenultimateLetter(k)
  {
  }

  /** The keyword with the given first two and last two characters. */
  function SignatureIndex(s: int): int
  {
    if s < 73786988 then
     if s < 68696772 then
      if s < 66896689 then
       if s < 65789069 then
        if s < 65706982 then
         if s < 65677978 then 80 else if s < 65686868 then 27 else 15
        else
         if s < 65767676 then if s < 65766982 then 87 else 30 else if s < 65787868 then 123 else 89
       else
        if s < 65857884 then
         if s < 65838367 then if s < 65836583 then 78 else 17 else if s < 65846772 then 66 else 52
        else
         if s < 66697378 then if s < 66696978 then 91 else 59 else if s < 66698269 then 56 else 8
      else
       if s < 67797884 then
        if s < 67726775 then
         if s < 67658369 then if s < 67656869 then 110 else 65 else if s < 67658384 then 68 else 94
        else
         if s < 67797384 then if s < 67796784 then 6 else 97 else if s < 67797778 then 96 else 95
       else
        if s < 67857769 then
         if s < 67828383 then if s < 67798469 then 38 else 69 else if s < 67828469 then 98 else 70
        else
         if s < 67858469 then if s < 67857780 then 100 else 99 else if s < 68658369 then 71 else 16
     else
      if s < 69888669 then
       if s < 68827980 then
        if s < 68697684 then
         if s < 68696968 then 72 else if s < 68697669 then 102 else 23
        else
         if s < 68698469 then if s < 68698367 then 90 else 3 else if s < 68736784 then 67 else 103
       else
        if s < 69838069 then
         if s < 69768369 then if s < 69656772 then 105 else 5 else if s < 69787868 then 24 else 22
        else
         if s < 69888084 then if s < 69887378 then 4 else 13 else if s < 69888483 then 25 else 33
      else
       if s < 72657871 then
        if s < 70827977 then
         if s < 70797178 then if s < 70657376 then 32 else 106 else if s < 70797982 then 9 else 10
        else
         if s < 71767966 then if s < 70857676 then 107 else 108 else if s < 71828580 then 109 else 54
       else
        if s < 73786568 then
         if s < 73718269 then if s < 73707370 then 53 else 111 else if s < 73778469 then 11 else 73
        else
         if s < 73786968 then if s < 73786784 then 14 else 35 else if s < 73786982 then 1 else 57
    else
     if s < 82696983 then
      if s < 78797879 then
       if s < 74797378 then
        if s < 73788284 then
         if s < 73787378 then 2 else if s < 73787689 then 93 else 122
        else
         if s < 73837383 then if s < 73788479 then 75 else 39 else if s < 73837676 then 104 else 112
       else
        if s < 76737569 then
         if s < 76697084 then if s < 75696989 then 74 else 7 else if s < 76737384 then 20 else 83
        else
         if s < 78656576 then if s < 77656772 then 64 else 76 else if s < 78797676 then 29 else 60
      else
       if s < 79856982 then
        if s < 79707970 then
         if s < 78857676 then if s < 78797984 then 62 else 61 else if s < 79706984 then 63 else 40
        else
         if s < 79826982 then if s < 79787978 then 41 else 28 else if s < 79827982 then 113 else 45
       else
        if s < 81858289 then
         if s < 80827765 then if s < 80766578 then 50 else 77 else if s < 80828289 then 79 else 101
        else
         if s < 82696769 then if s < 82658369 then 47 else 31 else if s < 82696784 then 88 else 114
     else
      if s < 84726978 then
       if s < 82796775 then
        if s < 82698369 then
         if s < 82696988 then 37 else if s < 82697769 then 0 else 86
        else
         if s < 82698880 then if s < 82698669 then 51 else 58 else if s < 82737284 then 12 else 115
       else
        if s < 83696984 then
         if s < 83657884 then if s < 82797987 then 116 else 117 else if s < 83696784 then 34 else 18
        else
         if s < 84697780 then if s < 84657669 then 42 else 19 else if s < 84698289 then 44 else 43
      else
       if s < 86656983 then
        if s < 85787978 then
         if s < 84826982 then if s < 84798479 then 21 else 92 else if s < 84827978 then 36 else 26
        else
         if s < 85808469 then if s < 85788569 then 118 else 46 else if s < 85837871 then 55 else 119
       else
        if s < 87726978 then
         if s < 86736576 then if s < 86658577 then 81 else 120 else if s < 86736987 then 82 else 121
        else
         if s < 87738472 then if s < 87728269 then 84 else 85 else if s < 87738584 then 49 else 48
  }

  lemma SignatureFinds(k: int, a: int, b: int, c: int, d: int)
    requires 0 <= k < N_KEYWORD
    requires a == FirstLetter(k) - 32 && b == SecondLetter(k) && c == PenultimateLetter(k) && d == LastLetter(k) - 32
    ensures SignatureIndex(((a * 100 + b) * 100 + c) * 100 + d) == k
  {
  }

  /** The first two and last two characters decide the keyword. */
  lemma SignatureDecides(k: int, o: int, l: int)
    requires 0 <= k < N_KEYWORD && o == AOffset(k) && l == ALen(k) && 2 <= l && 0 <= o && o + l <= N_TEXT
    ensures SignatureIndex(((ZText(o) * 100 + ZText(o + 1)) * 100 + ZText(o + l - 2)) * 100 + ZText(o + l - 1)) == k
  {
    KeywordBegins(k, o, ZText(o));
    KeywordSecond(k, o + 1, ZText(o + 1));
    KeywordPenultimate(k, o + l - 2, ZText(o + l - 2));
    KeywordEnds(k, o + l - 1, ZText(o + l - 1));
    SignatureFinds(k, ZText(o), ZText(o + 1), ZText(o + l - 2), ZText(o + l - 1));
  }
}
