/** The "please set tokens to" command: how the number is picked out of the
    transcript and when the reply-token budget takes it. */
module Tokens {
  import opened Text
  import opened Integers

  /** The budget must stay strictly below this many tokens. */
  const TokenCeiling := 4000

  /** A value the budget accepts: 1 to 3999. */
  predicate InBudget(n: int) {
    0 < n < TokenCeiling
  }

  /** The transcript with every ',' and then every '$' removed. */
  function Cleaned(speech: string): (r: string)
    ensures ',' !in r && '$' !in r
  {
    RemoveCharSubset(RemoveChar(speech, ','), '$', ',');
    RemoveChar(RemoveChar(speech, ','), '$')
  }

  /** The words of the cleaned transcript, split on single spaces, in spoken order. */
  function Words(speech: string): (ws: seq<string>)
    ensures |ws| >= 1
  {
    SplitOn(Cleaned(speech), ' ')
  }

  /** The first word of `ws` that `int()` accepts, or None when no word does. */
  function FirstParsed(ws: seq<string>): Option<int> {
    if ws == [] then None
    else if ParseInt(ws[0]).Some? then ParseInt(ws[0])
    else FirstParsed(ws[1..])
  }

  /** What the scan finds is the value of one of the words. */
  lemma {:induction false} FirstParsedSome(ws: seq<string>)
    ensures FirstParsed(ws).Some? ==> exists i :: 0 <= i < |ws| && ParseInt(ws[i]) == FirstParsed(ws)
  {
    if ws == [] {
    } else if ParseInt(ws[0]).Some? {
      assert ParseInt(ws[0]) == FirstParsed(ws);
    } else {
      var tail := ws[1..];
      FirstParsedSome(tail);
      if FirstParsed(tail).Some? {
        var j :| 0 <= j < |tail| && ParseInt(tail[j]) == FirstParsed(tail);
        assert tail[j] == ws[j + 1];
        assert ParseInt(ws[j + 1]) == FirstParsed(ws);
      }
    }
  }

  /** The number the token command acts on: words are scanned from the last to
      the first and the first one that parses wins, in range or not. */
  function TokenScan(speech: string): (r: Option<int>)
    ensures r.Some? ==> exists i :: 0 <= i < |Words(speech)| && ParseInt(Words(speech)[i]) == r
  {
    ReverseParsed(Words(speech));
    FirstParsed(Reverse(Words(speech)))
  }

  /** What the scan of a reversed list finds is the value of one of its words. */
  lemma {:induction false} ReverseParsed(ws: seq<string>)
    ensures FirstParsed(Reverse(ws)).Some? ==>
      exists i :: 0 <= i < |ws| && ParseInt(ws[i]) == FirstParsed(Reverse(ws))
  {
    var rev := Reverse(ws);
    FirstParsedSome(rev);
    if FirstParsed(rev).Some? {
      var j :| 0 <= j < |rev| && ParseInt(rev[j]) == FirstParsed(rev);
      assert rev[j] == ws[|ws| - 1 - j];
    }
  }

  /** The budget after the scan: the number found if it is in range, the
      current budget otherwise. */
  function NewBudget(found: Option<int>, current: int): (b: int)
    ensures InBudget(b) || b == current
    ensures b != current ==> found == Some(b)
    ensures found.Some? && InBudget(found.value) ==> b == found.value
  {
    match found
    case Some(n) => if InBudget(n) then n else current
    case None => current
  }

  /** The scan finds nothing exactly when no word parses. */
  lemma {:induction false} FirstParsedNone(ws: seq<string>)
    ensures FirstParsed(ws).None? <==> forall i :: 0 <= i < |ws| ==> ParseInt(ws[i]).None?
  {
    if ws != [] {
      var tail := ws[1..];
      FirstParsedNone(tail);
      if ParseInt(ws[0]).None? {
        assert FirstParsed(ws) == FirstParsed(tail);
        forall i | 1 <= i < |ws|
          ensures ws[i] == tail[i - 1]
        {
        }
      }
    }
  }

  /** The scan stops at the first word that parses, whatever its value. */
  lemma {:induction false} FirstParsedAt(ws: seq<string>, i: nat)
    requires i < |ws| && ParseInt(ws[i]).Some?
    requires forall j :: 0 <= j < i ==> ParseInt(ws[j]).None?
    ensures FirstParsed(ws) == ParseInt(ws[i])
  {
    if i > 0 {
      var tail := ws[1..];
      assert ParseInt(ws[0]).None?;
      assert FirstParsed(ws) == FirstParsed(tail);
      forall j | 0 <= j < i - 1
        ensures ParseInt(tail[j]).None?
      {
        assert tail[j] == ws[j + 1];
      }
      assert tail[i - 1] == ws[i];
      FirstParsedAt(tail, i - 1);
    }
  }

  /** Scanning a reversed list picks its LAST word that parses. */
  lemma {:induction false} ReversedScan(ws: seq<string>, i: nat)
    requires i < |ws| && ParseInt(ws[i]).Some?
    requires forall j :: i < j < |ws| ==> ParseInt(ws[j]).None?
    ensures FirstParsed(Reverse(ws)) == ParseInt(ws[i])
  {
    var rev := Reverse(ws);
    var k := |ws| - 1 - i;
    forall j | 0 <= j < k
      ensures ParseInt(rev[j]).None?
    {
      assert rev[j] == ws[|ws| - 1 - j];
    }
    assert rev[k] == ws[i];
    FirstParsedAt(rev, k);
  }

  /** The token command acts on the LAST word of the transcript that parses
      as an integer. */
  lemma {:induction false} LastParsedWins(speech: string, i: nat)
    requires i < |Words(speech)| && ParseInt(Words(speech)[i]).Some?
    requires forall j :: i < j < |Words(speech)| ==> ParseInt(Words(speech)[j]).None?
    ensures TokenScan(speech) == ParseInt(Words(speech)[i])
  {
    ReversedScan(Words(speech), i);
  }

  /** No number is found exactly when no word of the transcript parses. */
  lemma {:induction false} NoNumberFound(speech: string)
    ensures TokenScan(speech).None? <==>
      forall i :: 0 <= i < |Words(speech)| ==> ParseInt(Words(speech)[i]).None?
  {
    var ws := Words(speech);
    var rev := Reverse(ws);
    FirstParsedNone(rev);
    if TokenScan(speech).None? {
      forall i | 0 <= i < |ws|
        ensures ParseInt(ws[i]).None?
      {
        assert ws[i] == rev[|ws| - 1 - i];
      }
    }
  }

  /** Cleaning distributes over the pieces of a transcript. */
  lemma {:induction false} CleanedAppend(a: string, b: string)
    ensures Cleaned(a + b) == Cleaned(a) + Cleaned(b)
  {
    RemoveCharAppend(a, b, ',');
    RemoveCharAppend(RemoveChar(a, ','), RemoveChar(b, ','), '$');
  }

  /** Cleaning drops a lone ',' or '$' and keeps any other character. */
  lemma CleanedChar(ch: char)
    ensures Cleaned([ch]) == if ch == ',' || ch == '$' then [] else [ch]
  {
    RemoveCharSingle(ch, ',');
    RemoveCharSingle(ch, '$');
    assert RemoveChar([], '$') == [];
  }

  /** Cleaning a sentence cleans each of its words. */
  lemma {:induction false} CleanedSentence(before: string, word: string)
    ensures Cleaned(before + " " + word + "\n") == Cleaned(before) + " " + Cleaned(word) + "\n"
  {
    CleanedAppend(before + " " + word, "\n");
    CleanedAppend(before + " ", word);
    CleanedAppend(before, " ");
    CleanedChar(' ');
    CleanedChar('\n');
  }

  /** The last word of a sentence is the last of its words. */
  lemma {:induction false} LastWordOfSentence(before: string, word: string)
    requires ' ' !in word
    ensures Words(before + " " + word + "\n") == Words(before) + [Cleaned(word) + "\n"]
  {
    CleanedSentence(before, word);
    RemoveCharSubset(word, ',', ' ');
    RemoveCharSubset(RemoveChar(word, ','), '$', ' ');
    assert ' ' !in Cleaned(word) + "\n";
    SplitOnLastWord(Cleaned(before), ' ', Cleaned(word) + "\n");
    assert Cleaned(before) + " " + Cleaned(word) + "\n" == Cleaned(before) + [' '] + (Cleaned(word) + "\n");
  }

  /** The last word of the transcript decides the scan whenever it parses,
      whatever came before it; the newline the recogniser's text is given
      does not stop it from parsing. */
  lemma {:induction false} LastWordDecides(speech: string, before: string, word: string)
    requires speech == before + " " + word + "\n"
    requires ' ' !in word && ParseInt(Cleaned(word)).Some?
    ensures TokenScan(speech) == ParseInt(Cleaned(word))
  {
    LastWordOfSentence(before, word);
    var ws := Words(speech);
    assert ws[|ws| - 1] == Cleaned(word) + "\n";
    assert AllSpace("\n");
    TrailingSpaceIgnored(Cleaned(word), "\n");
    ReversedScan(ws, |ws| - 1);
  }

  /** A transcript ending in a number sets the scan to that number, however
      many other numbers came before it ("... 5000 or 100" gives 100). */
  lemma {:induction false} TrailingNumberChosen(before: string, n: int)
    ensures TokenScan(before + " " + IntToString(n) + "\n") == Some(n)
  {
    var word := IntToString(n);
    assert ',' !in word && '$' !in word && ' ' !in word by {
      assert AllDigits(word[1..]) && (word[0] == '-' || IsDigit(word[0]));
    }
    RemoveCharAbsent(word, ',');
    RemoveCharAbsent(word, '$');
    ParseIntRoundTrip(n);
    LastWordDecides(before + " " + word + "\n", before, word);
  }

  /** A transcript ending in a number outside 1-3999 leaves the budget as it
      was, even when an earlier word holds an acceptable number
      ("... 100 or 5000" keeps the old budget). */
  lemma {:induction false} TrailingNumberOutOfRange(before: string, n: int, current: int)
    requires !InBudget(n)
    ensures NewBudget(TokenScan(before + " " + IntToString(n) + "\n"), current) == current
  {
    TrailingNumberChosen(before, n);
  }

  /** Digits are left alone by the cleaning. */
  lemma CleanedDigits(digits: string)
    requires AllDigits(digits)
    ensures Cleaned(digits) == digits
  {
    assert ',' !in digits && '$' !in digits;
    RemoveCharAbsent(digits, ',');
    RemoveCharAbsent(digits, '$');
  }

  /** A last word that cleans to a run of digits sets the scan to their value. */
  lemma {:induction false} LastWordDigits(before: string, word: string, digits: string)
    requires ' ' !in word && Cleaned(word) == digits
    requires digits != [] && AllDigits(digits)
    ensures TokenScan(before + " " + word + "\n") == Some(DigitsValue(digits))
  {
    ParseDigits(digits);
    LastWordDecides(before + " " + word + "\n", before, word);
  }

  /** Cleaning drops the dollar sign in front of an amount. */
  lemma DollarCleaned(digits: string)
    requires AllDigits(digits)
    ensures Cleaned("$" + digits) == digits
  {
    CleanedAppend("$", digits);
    CleanedChar('$');
    CleanedDigits(digits);
  }

  /** Cleaning drops the thousands separator inside a number. */
  lemma SeparatorCleaned(high: string, low: string)
    requires AllDigits(high) && AllDigits(low)
    ensures Cleaned(high + "," + low) == high + low
  {
    var comma := [','];
    var whole := high + "," + low;
    assert whole == (high + comma) + low;
    CleanedAppend(high + comma, low);
    CleanedAppend(high, comma);
    CleanedChar(',');
    CleanedDigits(high);
    assert Cleaned(high + comma) == high by {
      assert high + [] == high;
    }
    CleanedDigits(low);
    assert Cleaned(whole) == high + low;
  }

  /** A dollar amount at the end ("... $150") is read without its sign. */
  lemma {:induction false} DollarAmount(before: string, digits: string)
    requires digits != [] && AllDigits(digits)
    ensures TokenScan(before + " $" + digits + "\n") == Some(DigitsValue(digits))
  {
    var word := "$" + digits;
    DollarCleaned(digits);
    assert before + " $" + digits + "\n" == before + " " + word + "\n";
    LastWordDigits(before, word, digits);
  }

  /** A number written with a thousands separator at the end ("... 1,500")
      is read as the digits on both sides of the comma. */
  lemma {:induction false} ThousandsSeparator(before: string, high: string, low: string)
    requires high != [] && AllDigits(high) && AllDigits(low)
    ensures TokenScan(before + " " + high + "," + low + "\n") == Some(DigitsValue(high + low))
  {
    var word := high + "," + low;
    SeparatorCleaned(high, low);
    assert ' ' !in word;
    assert before + " " + high + "," + low + "\n" == before + " " + word + "\n";
    LastWordDigits(before, word, high + low);
  }
}
