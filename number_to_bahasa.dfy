/** Indonesian number words and the strict ticket-number parser of the display
    (DisplayApp.Wpf/NumberToBahasa.cs). */
module NumberToBahasa {
  import opened Common

  /** The words for 0 to 10, indexed by value. */
  const Words: seq<string> :=
    ["nol", "satu", "dua", "tiga", "empat", "lima", "enam", "tujuh", "delapan", "sembilan", "sepuluh"]

  /** The sequence after the first separator: true only when the split yields
      more than one part and the second part parses; the value is 0 on failure. */
  function TryParseSequenceFromTicketNumber(ticketNumber: string): (r: TryInt)
    ensures r.success <==>
      |SplitTicketNumber(ticketNumber)| > 1 && TryParseInt(SplitTicketNumber(ticketNumber)[1]).Some?
    ensures r.success ==> r.value == TryParseInt(SplitTicketNumber(ticketNumber)[1]).value
    ensures r.success ==> 0 <= r.value <= Int32Max
    ensures !r.success ==> r.value == 0
  {
    var parts := SplitTicketNumber(ticketNumber);
    if |parts| > 1 && TryParseInt(parts[1]).Some? then TryInt(true, TryParseInt(parts[1]).value)
    else TryInt(false, 0)
  }

  /** The word for 0 to 10; the decimal text of any other number. */
  function ToWords(number: int): (r: string)
    ensures 0 <= number < |Words| ==> r == Words[number]
    ensures !(0 <= number < |Words|) ==> r == IntToString(number)
  {
    if 0 <= number < |Words| then Words[number] else IntToString(number)
  }

  /** The counter is spoken like any other number. */
  function LoketToWords(counter: int): (r: string)
    ensures 0 <= counter < |Words| ==> r == Words[counter]
    ensures !(0 <= counter < |Words|) ==> r == IntToString(counter)
  {
    ToWords(counter)
  }

  /** Reading back what ToWords wrote: a word gives its index, decimal text its value. */
  function FromWords(w: string): (r: Option<int>)
    ensures r.Some? ==> ToWords(r.value) == w
  {
    if w in Words then
      var i :| 0 <= i < |Words| && Words[i] == w;
      Some(i)
    else if TryParseInt(w).Some? && TryParseInt(w).value >= |Words| && w[0] != '0' then
      var n := TryParseInt(w).value;
      ParseNatToString(n);
      assert NatToString(n) == w by { DigitsCanonical(w, n); }
      Some(n)
    else None
  }

  /** A digit string whose value is 10 or more and that has no leading zero is
      the decimal text of that value. */
  lemma DigitsCanonical(w: string, n: nat)
    requires |w| > 0 && AllDigits(w) && ParseDigits(w) == n && n >= 10
    ensures NatToString(n) == w || w[0] == '0'
  {
    ParseNatToString(n);
    CanonicalDigits(w, NatToString(n));
  }

  /** Two digit strings with the same value and no leading zero are equal. */
  lemma {:induction false} CanonicalDigits(a: string, b: string)
    requires |a| > 0 && |b| > 0 && AllDigits(a) && AllDigits(b)
    requires ParseDigits(a) == ParseDigits(b)
    requires b[0] != '0'
    ensures a == b || a[0] == '0'
    decreases |a| + |b|
  {
    var la, lb := a[|a| - 1], b[|b| - 1];
    var ia, ib := a[..|a| - 1], b[..|b| - 1];
    assert ParseDigits(a) == ParseDigits(ia) * 10 + (la as int - '0' as int);
    assert ParseDigits(b) == ParseDigits(ib) * 10 + (lb as int - '0' as int);
    assert la == lb && ParseDigits(ia) == ParseDigits(ib);
    if |ia| == 0 && |ib| == 0 {
      assert a == [la] && b == [lb];
    } else if |ia| == 0 {
      LeadingDigitPositive(ib);
    } else if |ib| == 0 {
      if a[0] != '0' {
        assert ia[0] == a[0];
        LeadingDigitPositive(ia);
      }
    } else {
      assert ib[0] == b[0] && ia[0] == a[0];
      CanonicalDigits(ia, ib);
      assert a == ia + [la] && b == ib + [lb];
    }
  }

  /** A digit string that starts with a non-zero digit has a positive value. */
  lemma {:induction false} LeadingDigitPositive(s: string)
    requires |s| > 0 && AllDigits(s) && s[0] != '0'
    ensures ParseDigits(s) > 0
    decreases |s|
  {
    if |s| > 1 {
      var init := s[..|s| - 1];
      assert init[0] == s[0];
      LeadingDigitPositive(init);
    }
  }

  /** Every int ToWords can speak within int range is read back. */
  lemma FromToWords(n: int)
    requires 0 <= n <= Int32Max
    ensures FromWords(ToWords(n)) == Some(n)
  {
    if n < |Words| {
      assert Words[n] in Words;
      WordsDistinct();
    } else {
      TryParseIntToString(n);
      NotAWord(n);
    }
  }

  /** No two words are the same. */
  lemma WordsDistinct()
    ensures forall i, j :: 0 <= i < j < |Words| ==> Words[i] != Words[j]
  {
  }

  /** A decimal text is never one of the words: the words start with a letter. */
  lemma NotAWord(n: int)
    requires !(0 <= n < |Words|)
    ensures IntToString(n) !in Words
  {
    var s := IntToString(n);
    assert IsDigit(s[0]) || s[0] == '-';
    forall i | 0 <= i < |Words| ensures Words[i] != s {
      assert 'a' <= Words[i][0] <= 'z';
    }
  }

  /** Different numbers are spoken differently. */
  lemma ToWordsInjective(a: int, b: int)
    requires ToWords(a) == ToWords(b)
    ensures a == b
  {
    var ina, inb := 0 <= a < |Words|, 0 <= b < |Words|;
    if ina && inb {
      WordsDistinct();
    } else if ina {
      NotAWord(b);
    } else if inb {
      NotAWord(a);
    } else {
      IntToStringInjective(a, b);
    }
  }
}
