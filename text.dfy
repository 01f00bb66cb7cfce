/**
 Classification of one physical line by its text alone, as the line counter
 does it with `str.strip()` and `startswith('#')`.
 */
module Text {

  /** ASCII whitespace as Python's `str.isspace` sees it: space, the
      characters 9 to 13 (tab, newline, vertical tab, form feed, carriage
      return) and the separators 28 to 31. */
  predicate IsSpace(c: char)
  {
    c == ' ' || 9 <= c as int <= 13 || 28 <= c as int <= 31
  }

  /** `s` without its leading whitespace. */
  function TrimLeft(s: string): string
    decreases |s|
  {
    if s != [] && IsSpace(s[0]) then TrimLeft(s[1..]) else s
  }

  /** `s` without its trailing whitespace. */
  function TrimRight(s: string): string
    decreases |s|
  {
    if s != [] && IsSpace(s[|s| - 1]) then TrimRight(s[..|s| - 1]) else s
  }

  /** TrimLeft drops exactly the leading whitespace: what remains is a
      suffix that is empty or starts with a non-space character. */
  lemma {:induction false} TrimLeftSpec(s: string)
    decreases |s|
    ensures |TrimLeft(s)| <= |s| && TrimLeft(s) == s[|s| - |TrimLeft(s)|..]
    ensures forall i :: 0 <= i < |s| - |TrimLeft(s)| ==> IsSpace(s[i])
    ensures TrimLeft(s) != [] ==> !IsSpace(TrimLeft(s)[0])
  {
    if s != [] && IsSpace(s[0]) {
      TrimLeftSpec(s[1..]);
      forall i | 0 <= i < |s| - |TrimLeft(s)| ensures IsSpace(s[i]) {
        if i > 0 {
          assert s[i] == s[1..][i - 1];
        }
      }
    }
  }

  /** TrimRight drops exactly the trailing whitespace: what remains is a
      prefix that is empty or ends with a non-space character. */
  lemma {:induction false} TrimRightSpec(s: string)
    decreases |s|
    ensures |TrimRight(s)| <= |s| && TrimRight(s) == s[..|TrimRight(s)|]
    ensures forall i :: |TrimRight(s)| <= i < |s| ==> IsSpace(s[i])
    ensures TrimRight(s) != [] ==> !IsSpace(TrimRight(s)[|TrimRight(s)| - 1])
  {
    if s != [] && IsSpace(s[|s| - 1]) {
      TrimRightSpec(s[..|s| - 1]);
      forall i | |TrimRight(s)| <= i < |s| ensures IsSpace(s[i]) {
        if i < |s| - 1 {
          assert s[i] == s[..|s| - 1][i];
        }
      }
    }
  }

  /** `str.strip()`: `s` without leading and trailing whitespace. */
  function Strip(s: string): (r: string)
  {
    TrimRight(TrimLeft(s))
  }

  /** A line that counts as code: not blank after stripping and not a
      comment line. */
  predicate IsCodeText(line: string)
  {
    var stripped := Strip(line);
    |stripped| > 0 && stripped[0] != '#'
  }

  /** A line is blank after stripping exactly when every character of it is
      whitespace. */
  lemma StripEmptyIff(s: string)
    ensures Strip(s) == [] <==> forall i :: 0 <= i < |s| ==> IsSpace(s[i])
  {
    var t := TrimLeft(s);
    TrimLeftSpec(s);
    TrimRightSpec(t);
    if Strip(s) == [] {
      assert t == [] by {
        if t != [] {
          assert false;
        }
      }
    }
    if t != [] {
      assert t[0] == s[|s| - |t|];
    }
  }

  /** A stripped line starts with `c` exactly when `c` is the first
      character of the line that is not whitespace. */
  lemma StripStartIff(s: string, c: char)
    requires !IsSpace(c)
    ensures (|Strip(s)| > 0 && Strip(s)[0] == c) <==>
            exists k :: 0 <= k < |s| && s[k] == c && forall j :: 0 <= j < k ==> IsSpace(s[j])
  {
    var t := TrimLeft(s);
    TrimLeftSpec(s);
    TrimRightSpec(t);
    var k := |s| - |t|;
    if |Strip(s)| > 0 && Strip(s)[0] == c {
      assert s[k] == c;
    }
    if exists k' :: 0 <= k' < |s| && s[k'] == c && forall j :: 0 <= j < k' ==> IsSpace(s[j]) {
      var k' :| 0 <= k' < |s| && s[k'] == c && forall j :: 0 <= j < k' ==> IsSpace(s[j]);
      assert k' == k by {
        if k' < k {
          assert false;
        } else if k' > k {
          assert false;
        }
      }
      assert !IsSpace(t[0]);
      assert TrimRight(t)[0] == c;
    }
  }

  /** A line counts as code exactly when its first character that is not
      whitespace exists and is not `#`. */
  lemma IsCodeTextIff(s: string)
    ensures IsCodeText(s) <==>
            exists k :: 0 <= k < |s| && !IsSpace(s[k]) && s[k] != '#' && forall j :: 0 <= j < k ==> IsSpace(s[j])
  {
    var t := TrimLeft(s);
    TrimLeftSpec(s);
    TrimRightSpec(t);
    var k0 := |s| - |t|;
    if t != [] {
      assert t[0] == s[k0];
      assert TrimRight(t) != [];
      assert Strip(s)[0] == s[k0];
      if exists k :: 0 <= k < |s| && !IsSpace(s[k]) && s[k] != '#' && forall j :: 0 <= j < k ==> IsSpace(s[j]) {
        var k :| 0 <= k < |s| && !IsSpace(s[k]) && s[k] != '#' && forall j :: 0 <= j < k ==> IsSpace(s[j]);
        assert k == k0 by {
          if k < k0 {
            assert false;
          } else if k > k0 {
            assert false;
          }
        }
      }
    } else {
      assert Strip(s) == [];
    }
  }
}
