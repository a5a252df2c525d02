/** The three input masks the checkout form applies as the shopper types
    (card number, expiry, CVV), the clean-up applied to the card fields when
    the order is submitted, and what each guarantees. */
module InputMasks {
  import opened JsString

  predicate FourDigits(s: string)
    requires |s| >= 4
  {
    IsDigit(s[0]) && IsDigit(s[1]) && IsDigit(s[2]) && IsDigit(s[3])
  }

  /** `s.replace(/(\d{4})/g, "$1 ")`: scanning left to right, every run of
      four digits that starts where the previous match ended (or where no
      match could start) is followed by a space. */
  function GroupFours(s: string): (r: string)
    ensures |r| >= |s|
    decreases |s|
  {
    if |s| >= 4 && FourDigits(s) then s[..4] + " " + GroupFours(s[4..])
    else if s == [] then []
    else [s[0]] + GroupFours(s[1..])
  }

  /** The card-number mask: drop every whitespace character, put a space
      after each group of four digits, trim. */
  function CardMask(value: string): (r: string)
    ensures r == [] || (!IsSpace(r[0]) && !IsSpace(r[|r| - 1]))
  {
    Trim(GroupFours(RemoveSpaces(value)))
  }

  /** The expiry mask: keep the first four digits and put "/" after the
      first two when there are at least two. */
  function ExpiryMask(value: string): (r: string)
    ensures |r| <= 5
    ensures |KeepDigits(value)| >= 2 <==> (|r| >= 3 && r[2] == '/')
    ensures forall i :: 0 <= i < |r| && i != 2 ==> IsDigit(r[i])
  {
    var d := Slice(KeepDigits(value), 4);
    if |d| >= 2 then
      var r := d[..2] + "/" + d[2..];
      assert forall i :: 0 <= i < |r| && i != 2 ==> r[i] == d[if i < 2 then i else i - 1];
      r
    else
      d
  }

  /** The CVV mask: the first four digits of the input. */
  function CvvMask(value: string): (r: string)
    ensures AllDigits(r) && |r| <= 4
  {
    Slice(KeepDigits(value), 4)
  }

  /** The mask `handleChange` applies to the input named `name`; every other
      input keeps what was typed. */
  function Mask(name: string, value: string): (r: string)
    ensures name !in {"cardNumber", "cardExpiry", "cardCVV"} ==> r == value
    ensures name == "cardNumber" ==>
              && RemoveSpaces(r) == RemoveSpaces(value)
              && (r == [] || (!IsSpace(r[0]) && !IsSpace(r[|r| - 1])))
    ensures name == "cardExpiry" ==> |r| <= 5 && KeepDigits(r) == Slice(KeepDigits(value), 4)
    ensures name == "cardCVV" ==> AllDigits(r) && r == Slice(KeepDigits(value), 4)
  {
    if name == "cardNumber" then
      CardMaskRoundTrip(value);
      CardMask(value)
    else if name == "cardExpiry" then
      ExpiryCleanRecoversDigits(value);
      ExpiryMask(value)
    else if name == "cardCVV" then CvvMask(value)
    else value
  }

  /** The card number sent on submit: `replace(/\s/g, "")`. */
  function CleanCardNumber(masked: string): (r: string)
    ensures NoSpace(r)
  {
    RemoveSpaces(masked)
  }

  /** The expiry sent on submit, MMYY: `replace(/\D/g, "")`. */
  function CleanExpiry(masked: string): (r: string)
    ensures AllDigits(r)
  {
    KeepDigits(masked)
  }

  /** An empty field stays empty under every mask. */
  lemma MasksKeepEmpty()
    ensures CardMask([]) == [] && ExpiryMask([]) == [] && CvvMask([]) == []
  {
    CardMaskOfEmpty();
    DigitMasksOfEmpty();
  }

  lemma CardMaskOfEmpty()
    ensures CardMask([]) == []
  {
    var empty: string := [];
    assert RemoveSpaces(empty) == empty;
    assert GroupFours(empty) == empty;
    assert TrimEnd(TrimStart(empty)) == empty;
  }

  lemma DigitMasksOfEmpty()
    ensures ExpiryMask([]) == [] && CvvMask([]) == []
  {
    var empty: string := [];
    assert KeepDigits(empty) == empty;
  }

  // ---------------------------------------------------------------------
  // Card number

  lemma {:induction false} GroupFoursRemoveSpaces(s: string)
    requires NoSpace(s)
    ensures RemoveSpaces(GroupFours(s)) == s
    decreases |s|
  {
    if |s| >= 4 && FourDigits(s) {
      var front, back := s[..4], s[4..];
      assert NoSpace(front) && NoSpace(back) by {
        forall i | 0 <= i < |back| ensures !IsSpace(back[i]) { assert back[i] == s[i + 4]; }
      }
      var space := " ";
      assert RemoveSpaces(space) == [] by { assert IsSpace(space[0]) && space[1..] == []; }
      calc {
        RemoveSpaces(GroupFours(s));
        RemoveSpaces(front + space + GroupFours(back));
      == { RemoveSpacesAppend(front + space, GroupFours(back)); }
        RemoveSpaces(front + space) + RemoveSpaces(GroupFours(back));
      == { RemoveSpacesAppend(front, space); GroupFoursRemoveSpaces(back); }
        RemoveSpaces(front) + [] + back;
      == { assert RemoveSpaces(front) == front; }
        front + [] + back;
      == { assert s == front + back; }
        s;
      }
    } else if s != [] {
      var rest := s[1..];
      assert NoSpace(rest) by {
        forall i | 0 <= i < |rest| ensures !IsSpace(rest[i]) { assert rest[i] == s[i + 1]; }
      }
      assert RemoveSpaces([s[0]]) == [s[0]] by { assert !IsSpace(s[0]) && [s[0]][1..] == []; }
      calc {
        RemoveSpaces(GroupFours(s));
        RemoveSpaces([s[0]] + GroupFours(rest));
      == { RemoveSpacesAppend([s[0]], GroupFours(rest)); GroupFoursRemoveSpaces(rest); }
        [s[0]] + rest;
      == { assert s == [s[0]] + rest; }
        s;
      }
    }
  }

  /** A non-digit can never be inside a match of `\d{4}`, so it splits the
      input into two parts that are grouped independently: each run of digits
      is grouped on its own. */
  lemma {:induction false} GroupFoursSplitsAtNonDigit(a: string, c: char, b: string)
    requires !IsDigit(c)
    ensures GroupFours(a + [c] + b) == GroupFours(a) + [c] + GroupFours(b)
    decreases |a|
  {
    if a == [] {
      assert a + [c] + b == [c] + b;
      GroupFoursAtNonDigit([c] + b);
      assert ([c] + b)[1..] == b;
    } else if |a| >= 4 && FourDigits(a) {
      GroupFoursSplitsAtNonDigit(a[4..], c, b);
      GroupFoursMatchSplit(a, c, b);
    } else {
      GroupFoursSplitsAtNonDigit(a[1..], c, b);
      GroupFoursNoMatchSplit(a, c, b);
    }
  }

  /** One step of `GroupFoursSplitsAtNonDigit` when `a` starts with a match. */
  lemma GroupFoursMatchSplit(a: string, c: char, b: string)
    requires |a| >= 4 && FourDigits(a)
    requires GroupFours(a[4..] + [c] + b) == GroupFours(a[4..]) + [c] + GroupFours(b)
    ensures GroupFours(a + [c] + b) == GroupFours(a) + [c] + GroupFours(b)
  {
    GroupFoursMatchFront(a, c, b);
    GroupFoursAtMatch(a);
    Regroup(a[..4] + " ", GroupFours(a[4..]), [c], GroupFours(b));
  }

  /** One step of `GroupFoursSplitsAtNonDigit` when no match starts at the
      front of `a`. */
  lemma GroupFoursNoMatchSplit(a: string, c: char, b: string)
    requires a != [] && !(|a| >= 4 && FourDigits(a)) && !IsDigit(c)
    requires GroupFours(a[1..] + [c] + b) == GroupFours(a[1..]) + [c] + GroupFours(b)
    ensures GroupFours(a + [c] + b) == GroupFours(a) + [c] + GroupFours(b)
  {
    GroupFoursNoMatchFront(a, c, b);
    GroupFoursNoMatch(a);
    Regroup([a[0]], GroupFours(a[1..]), [c], GroupFours(b));
  }

  /** A match at the front of `a` is a match at the front of `a + [c] + b`. */
  lemma GroupFoursMatchFront(a: string, c: char, b: string)
    requires |a| >= 4 && FourDigits(a)
    ensures GroupFours(a + [c] + b) == a[..4] + " " + GroupFours(a[4..] + [c] + b)
  {
    var s := a + [c] + b;
    assert s[..4] == a[..4] && s[4..] == a[4..] + [c] + b;
    GroupFoursAtMatch(s);
  }

  /** When no match starts at the front of `a`, none starts at the front of
      `a + [c] + b` either, `c` being a non-digit. */
  lemma GroupFoursNoMatchFront(a: string, c: char, b: string)
    requires a != [] && !(|a| >= 4 && FourDigits(a)) && !IsDigit(c)
    ensures GroupFours(a + [c] + b) == [a[0]] + GroupFours(a[1..] + [c] + b)
  {
    var s := a + [c] + b;
    assert s[0] == a[0] && s[1..] == a[1..] + [c] + b;
    assert !(|s| >= 4 && FourDigits(s)) by {
      assert s[|a|] == c;
      if |s| >= 4 && |a| >= 4 {
        assert s[..4] == a[..4];
      }
    }
    GroupFoursNoMatch(s);
  }

  lemma GroupFoursAtMatch(s: string)
    requires |s| >= 4 && FourDigits(s)
    ensures GroupFours(s) == s[..4] + " " + GroupFours(s[4..])
  {
  }

  lemma GroupFoursNoMatch(s: string)
    requires s != [] && !(|s| >= 4 && FourDigits(s))
    ensures GroupFours(s) == [s[0]] + GroupFours(s[1..])
  {
  }

  lemma Regroup(x: string, y: string, w: string, z: string)
    ensures x + (y + w + z) == x + y + w + z
  {
  }

  /** A string that starts with a non-digit is grouped from its second
      character on. */
  lemma GroupFoursAtNonDigit(s: string)
    requires s != [] && !IsDigit(s[0])
    ensures GroupFours(s) == [s[0]] + GroupFours(s[1..])
  {
  }

  /** Removing the spaces from a masked card number gives back what was
      typed with all whitespace removed. */
  lemma CardMaskRoundTrip(value: string)
    ensures RemoveSpaces(CardMask(value)) == RemoveSpaces(value)
  {
    var s := RemoveSpaces(value);
    TrimKeepsNonSpace(GroupFours(s));
    GroupFoursRemoveSpaces(s);
  }

  /** Masking an already masked card number changes nothing. */
  lemma CardMaskIdempotent(value: string)
    ensures CardMask(CardMask(value)) == CardMask(value)
  {
    CardMaskRoundTrip(value);
  }

  /** The values the card-number mask leaves unchanged are exactly the
      values it produces. */
  lemma CardMaskFixedPoints(v: string)
    ensures CardMask(v) == v <==> exists typed :: CardMask(typed) == v
  {
    if exists typed :: CardMask(typed) == v {
      var typed :| CardMask(typed) == v;
      CardMaskIdempotent(typed);
    }
  }

  /** Re-masking the number that is sent on submit reproduces the field the
      shopper saw. */
  lemma CardMaskOfCleaned(value: string)
    ensures CardMask(CleanCardNumber(CardMask(value))) == CardMask(value)
  {
    CardMaskRoundTrip(value);
  }

  lemma {:induction false} GroupFoursShort(s: string)
    requires |s| < 4
    ensures GroupFours(s) == s
    decreases |s|
  {
    if s != [] {
      GroupFoursShort(s[1..]);
      assert s == [s[0]] + s[1..];
    }
  }

  /** On digits alone, the grouping puts a space at every fifth position,
      the digits in order everywhere else. */
  lemma {:induction false} GroupFoursOfDigits(s: string)
    requires AllDigits(s)
    ensures |GroupFours(s)| == |s| + |s| / 4
    ensures forall k :: 0 <= k < |GroupFours(s)| ==>
              GroupFours(s)[k] == if k % 5 == 4 then ' ' else s[k - k / 5]
    decreases |s|
  {
    if |s| < 4 {
      GroupFoursShort(s);
    } else {
      assert FourDigits(s);
      var rest := GroupFours(s[4..]);
      GroupFoursOfDigits(s[4..]);
      var g := GroupFours(s);
      assert g == s[..4] + " " + rest;
      forall k | 0 <= k < |g|
        ensures g[k] == if k % 5 == 4 then ' ' else s[k - k / 5]
      {
        if k >= 5 {
          var j := k - 5;
          assert g[k] == rest[j];
          ShiftFive(k);
          if k % 5 != 4 {
            assert rest[j] == s[4..][j - j / 5];
            assert 4 + j - j / 5 == k - k / 5;
          }
        } else {
          assert k / 5 == 0 && k % 5 == k;
        }
      }
    }
  }

  lemma ShiftFive(k: int)
    requires k >= 5
    ensures (k - 5) % 5 == k % 5 && (k - 5) / 5 == k / 5 - 1
  {
    FiveDivMod(k / 5 - 1, k % 5);
  }

  lemma FiveDivMod(x: int, r: int)
    requires 0 <= r < 5
    ensures (5 * x + r) % 5 == r && (5 * x + r) / 5 == x
  {
  }

  lemma DigitsHaveNoSpace(s: string)
    requires AllDigits(s)
    ensures NoSpace(s)
  {
    forall i | 0 <= i < |s| ensures !IsSpace(s[i]) { assert IsDigit(s[i]); }
  }

  /** One position of the grouped digits that is not a separator holds a
      digit, so it is not whitespace. */
  lemma GroupedDigitAt(s: string, k: int)
    requires AllDigits(s) && 0 <= k < |GroupFours(s)| && k % 5 != 4
    ensures !IsSpace(GroupFours(s)[k])
  {
    GroupFoursOfDigits(s);
    assert IsDigit(s[k - k / 5]);
  }

  /** On a non-empty digit string, trimming the grouped digits drops only the
      trailing space that follows a final complete group. */
  lemma TrimOfGroupedDigits(s: string)
    requires AllDigits(s) && s != []
    ensures var g := GroupFours(s);
      |g| >= |s| + (|s| - 1) / 4 && Trim(g) == g[..|s| + (|s| - 1) / 4]
  {
    var g := GroupFours(s);
    assert |g| == |s| + |s| / 4 by { GroupFoursOfDigits(s); }
    GroupedDigitAt(s, 0);
    assert TrimStart(g) == g;
    if |s| % 4 == 0 {
      TrimEndOfFullGroups(s);
    } else {
      TrimEndOfPartialGroup(s);
    }
  }

  /** A final complete group is followed by one space, which trim drops. */
  lemma TrimEndOfFullGroups(s: string)
    requires AllDigits(s) && s != [] && |s| % 4 == 0
    ensures |GroupFours(s)| == |s| + |s| / 4
    ensures TrimEnd(GroupFours(s)) == GroupFours(s)[..|GroupFours(s)| - 1]
  {
    var g := GroupFours(s);
    assert |g| == |s| + |s| / 4 by { GroupFoursOfDigits(s); }
    var last := |g| - 1;
    var q := |s| / 4;
    assert last == 5 * (q - 1) + 4;
    assert IsSpace(g[last]) by {
      FiveDivMod(q - 1, 4);
      GroupFoursOfDigits(s);
    }
    var h := g[..last];
    assert !IsSpace(h[last - 1]) by {
      FiveDivMod(q - 1, 3);
      GroupedDigitAt(s, last - 1);
      assert h[last - 1] == g[last - 1];
    }
    assert TrimEnd(h) == h;
    assert TrimEnd(g) == TrimEnd(h);
  }

  /** A final partial group ends in a digit, so trim keeps everything. */
  lemma TrimEndOfPartialGroup(s: string)
    requires AllDigits(s) && |s| % 4 != 0
    ensures |GroupFours(s)| == |s| + |s| / 4
    ensures TrimEnd(GroupFours(s)) == GroupFours(s)
  {
    var g := GroupFours(s);
    assert |g| == |s| + |s| / 4 by { GroupFoursOfDigits(s); }
    var last := |g| - 1;
    var q := |s| / 4;
    assert last == 5 * q + |s| % 4 - 1;
    FiveDivMod(q, |s| % 4 - 1);
    GroupedDigitAt(s, last);
  }

  /** For a number typed as n digits, the mask yields the digits in order
      with exactly one space after each complete group of four that is
      followed by more digits, and no space at either end. */
  lemma CardMaskOfDigits(s: string)
    requires AllDigits(s)
    ensures var r := CardMask(s);
      && |r| == (if s == [] then 0 else |s| + (|s| - 1) / 4)
      && (forall k :: 0 <= k < |r| ==> r[k] == if k % 5 == 4 then ' ' else s[k - k / 5])
      && (r != [] ==> r[0] != ' ' && r[|r| - 1] != ' ')
  {
    DigitsHaveNoSpace(s);
    var g := GroupFours(s);
    var r := CardMask(s);
    assert r == Trim(g);
    GroupFoursOfDigits(s);
    if s != [] {
      TrimOfGroupedDigits(s);
      assert r == g[..|s| + (|s| - 1) / 4];
      forall k | 0 <= k < |r|
        ensures r[k] == if k % 5 == 4 then ' ' else s[k - k / 5]
      {
        assert r[k] == g[k];
      }
    }
  }

  // ---------------------------------------------------------------------
  // Expiry

  /** Stripping the non-digits from the masked expiry, which is what is sent
      as the card expiry, recovers the first four (or fewer) digits typed. */
  lemma ExpiryCleanRecoversDigits(value: string)
    ensures CleanExpiry(ExpiryMask(value)) == Slice(KeepDigits(value), 4)
    ensures |CleanExpiry(ExpiryMask(value))| <= 4
  {
    var d := Slice(KeepDigits(value), 4);
    assert AllDigits(d) by {
      forall i | 0 <= i < |d| ensures IsDigit(d[i]) { assert d[i] == KeepDigits(value)[i]; }
    }
    if |d| >= 2 {
      assert ExpiryMask(value) == d[..2] + "/" + d[2..];
      KeepDigitsAroundSlash(d[..2], d[2..]);
      assert d == d[..2] + d[2..];
    } else {
      assert ExpiryMask(value) == d;
    }
  }

  lemma KeepDigitsAroundSlash(a: string, b: string)
    requires AllDigits(a) && AllDigits(b)
    ensures KeepDigits(a + "/" + b) == a + b
  {
    var slash := "/";
    assert KeepDigits(slash) == [] by {
      assert !IsDigit(slash[0]) && slash[1..] == [];
    }
    calc {
      KeepDigits(a + slash + b);
    == { KeepDigitsAppend(a + slash, b); }
      KeepDigits(a + slash) + KeepDigits(b);
    == { KeepDigitsAppend(a, slash); }
      KeepDigits(a) + [] + KeepDigits(b);
    == { assert KeepDigits(a) == a && KeepDigits(b) == b; }
      a + [] + b;
    == { assert a + [] == a; }
      a + b;
    }
  }

  /** Masking an already masked expiry changes nothing. */
  lemma ExpiryMaskIdempotent(value: string)
    ensures ExpiryMask(ExpiryMask(value)) == ExpiryMask(value)
  {
    ExpiryCleanRecoversDigits(value);
  }

  /** The values the expiry mask leaves unchanged are exactly the values it
      produces. */
  lemma ExpiryMaskFixedPoints(v: string)
    ensures ExpiryMask(v) == v <==> exists typed :: ExpiryMask(typed) == v
  {
    if exists typed :: ExpiryMask(typed) == v {
      var typed :| ExpiryMask(typed) == v;
      ExpiryMaskIdempotent(typed);
    }
  }

  /** Re-masking the MMYY that is sent on submit reproduces the field the
      shopper saw. */
  lemma ExpiryMaskOfCleaned(value: string)
    ensures ExpiryMask(CleanExpiry(ExpiryMask(value))) == ExpiryMask(value)
  {
    ExpiryCleanRecoversDigits(value);
  }

  // ---------------------------------------------------------------------
  // CVV and the whole of handleChange

  /** The CVV kept is the digits typed, in order, cut after the fourth. */
  lemma CvvMaskKeepsLeadingDigits(value: string)
    ensures var r := CvvMask(value);
      && |r| <= |KeepDigits(value)| && r == KeepDigits(value)[..|r|]
      && (|r| == 4 || r == KeepDigits(value))
  {
  }

  /** Masking an already masked CVV changes nothing. */
  lemma CvvMaskIdempotent(value: string)
    ensures CvvMask(CvvMask(value)) == CvvMask(value)
  {
    var r := CvvMask(value);
    assert KeepDigits(r) == r;
  }

  /** The values the CVV mask leaves unchanged are exactly the values it
      produces. */
  lemma CvvMaskFixedPoints(v: string)
    ensures CvvMask(v) == v <==> exists typed :: CvvMask(typed) == v
  {
    if exists typed :: CvvMask(typed) == v {
      var typed :| CvvMask(typed) == v;
      CvvMaskIdempotent(typed);
    }
  }

  /** Whatever input is edited, applying its mask to the value it already
      holds changes nothing. */
  lemma MaskIdempotent(name: string, value: string)
    ensures Mask(name, Mask(name, value)) == Mask(name, value)
  {
    if name == "cardNumber" {
      CardMaskIdempotent(value);
    } else if name == "cardExpiry" {
      ExpiryMaskIdempotent(value);
    } else if name == "cardCVV" {
      CvvMaskIdempotent(value);
    }
  }
}
