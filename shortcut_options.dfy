/**
 * The list of hotkeys the settings dialog offers: the twelve bare function
 * keys, each function key under four modifiers, then three combinations per
 * letter.
 */
module ShortcutOptions {

  const FKeys: seq<string> := ["F1", "F2", "F3", "F4", "F5", "F6", "F7", "F8", "F9", "F10", "F11", "F12"]
  const FKeyPrefixes: seq<string> := ["Ctrl+", "Alt+", "Shift+", "Super+"]
  const Letters: string := "ABCDEFGHIJKLMNOPQRSTUVWXYZ"
  const LetterPrefixes: seq<string> := ["Ctrl+", "Ctrl+Shift+", "Super+"]

  /** Number of options: 12 + 4 * 12 + 3 * 26. */
  const OptionCount: nat := 138

  /** The option at position `i`, split into its modifier prefix and its key. */
  function OptionParts(i: nat): (string, string)
    requires i < OptionCount
  {
    if i < 12 then ("", FKeys[i])
    else if i < 60 then (FKeyPrefixes[(i - 12) / 12], FKeys[(i - 12) % 12])
    else (LetterPrefixes[(i - 60) % 3], [Letters[(i - 60) / 3]])
  }

  /** The option at position `i`, as the combo box shows it. */
  function OptionAt(i: nat): string
    requires i < OptionCount
  {
    OptionParts(i).0 + OptionParts(i).1
  }

  /** The first `k` keys, each under `prefix`. */
  function Row(prefix: string, keys: seq<string>, k: nat): (r: seq<string>)
    requires k <= |keys|
    ensures |r| == k
  {
    if k == 0 then [] else Row(prefix, keys, k - 1) + [prefix + keys[k - 1]]
  }

  /** `key` under each of the first `m` prefixes. */
  function Column(prefixes: seq<string>, key: string, m: nat): (r: seq<string>)
    requires m <= |prefixes|
    ensures |r| == m
  {
    if m == 0 then [] else Column(prefixes, key, m - 1) + [prefixes[m - 1] + key]
  }

  /** The first `p` prefixes, each followed by all twelve keys: the order of the function-key loops. */
  function PrefixMajor(prefixes: seq<string>, keys: seq<string>, p: nat): (r: seq<string>)
    requires p <= |prefixes| && |keys| == 12
    ensures |r| == 12 * p
  {
    if p == 0 then [] else PrefixMajor(prefixes, keys, p - 1) + Row(prefixes[p - 1], keys, 12)
  }

  /** The first `l` letters, each under all three prefixes: the order of the letter loop. */
  function LetterMajor(prefixes: seq<string>, letters: string, l: nat): (r: seq<string>)
    requires l <= |letters| && |prefixes| == 3
    ensures |r| == 3 * l
  {
    if l == 0 then [] else LetterMajor(prefixes, letters, l - 1) + Column(prefixes, [letters[l - 1]], 3)
  }

  /** The whole list, group by group. */
  function Options(): seq<string> {
    FKeys + PrefixMajor(FKeyPrefixes, FKeys, 4) + LetterMajor(LetterPrefixes, Letters, 26)
  }

  /**
   * _get_shortcut_options: builds the list with nested loops and appends.
   * OptionsClosedForm and OptionsAreDistinct say what the list holds.
   */
  method GetShortcutOptions() returns (options: seq<string>)
    ensures options == Options()
  {
    options := ["F1", "F2", "F3", "F4", "F5", "F6", "F7", "F8", "F9", "F10", "F11", "F12"];
    for p := 0 to 4
      invariant options == FKeys + PrefixMajor(FKeyPrefixes, FKeys, p)
    {
      ghost var done := options;
      for k := 0 to 12
        invariant options == done + Row(FKeyPrefixes[p], FKeys, k)
      {
        options := options + [FKeyPrefixes[p] + FKeys[k]];
      }
      AppendAssoc(FKeys, PrefixMajor(FKeyPrefixes, FKeys, p), Row(FKeyPrefixes[p], FKeys, 12));
    }
    ghost var fkeyPart := options;
    for l := 0 to 26
      invariant options == fkeyPart + LetterMajor(LetterPrefixes, Letters, l)
    {
      var letter := Letters[l];
      ghost var before := options;
      options := options + ["Ctrl+" + [letter]];
      options := options + ["Ctrl+Shift+" + [letter]];
      options := options + ["Super+" + [letter]];
      AppendThree(before, "Ctrl+" + [letter], "Ctrl+Shift+" + [letter], "Super+" + [letter]);
      LetterColumn(letter);
      AppendAssoc(fkeyPart, LetterMajor(LetterPrefixes, Letters, l), Column(LetterPrefixes, [letter], 3));
    }
  }

  lemma AppendAssoc(a: seq<string>, b: seq<string>, c: seq<string>)
    ensures (a + b) + c == a + (b + c)
  {
  }

  lemma AppendThree(xs: seq<string>, a: string, b: string, c: string)
    ensures xs + [a] + [b] + [c] == xs + [a, b, c]
  {
  }

  /** The three entries the letter loop appends for one letter. */
  lemma LetterColumn(letter: char)
    ensures Column(LetterPrefixes, [letter], 3) == ["Ctrl+" + [letter], "Ctrl+Shift+" + [letter], "Super+" + [letter]]
  {
    ColumnAt(LetterPrefixes, [letter], 3);
    assert LetterPrefixes[0] == "Ctrl+" && LetterPrefixes[1] == "Ctrl+Shift+" && LetterPrefixes[2] == "Super+";
  }

  lemma {:induction false} RowAt(prefix: string, keys: seq<string>, k: nat)
    requires k <= |keys|
    ensures forall m :: 0 <= m < k ==> Row(prefix, keys, k)[m] == prefix + keys[m]
  {
    if k > 0 {
      RowAt(prefix, keys, k - 1);
    }
  }

  lemma {:induction false} ColumnAt(prefixes: seq<string>, key: string, m: nat)
    requires m <= |prefixes|
    ensures forall n :: 0 <= n < m ==> Column(prefixes, key, m)[n] == prefixes[n] + key
  {
    if m > 0 {
      ColumnAt(prefixes, key, m - 1);
    }
  }

  lemma {:induction false} PrefixMajorAt(prefixes: seq<string>, keys: seq<string>, p: nat)
    requires p <= |prefixes| && |keys| == 12
    ensures forall i :: 0 <= i < 12 * p ==> PrefixMajor(prefixes, keys, p)[i] == prefixes[i / 12] + keys[i % 12]
  {
    if p > 0 {
      PrefixMajorAt(prefixes, keys, p - 1);
      RowAt(prefixes[p - 1], keys, 12);
      forall i | 12 * (p - 1) <= i < 12 * p
        ensures PrefixMajor(prefixes, keys, p)[i] == prefixes[i / 12] + keys[i % 12]
      {
        InBlockOf12(i, p - 1);
        assert PrefixMajor(prefixes, keys, p)[i] == Row(prefixes[p - 1], keys, 12)[i - 12 * (p - 1)];
      }
    }
  }

  lemma {:induction false} LetterMajorAt(prefixes: seq<string>, letters: string, l: nat)
    requires l <= |letters| && |prefixes| == 3
    ensures forall i :: 0 <= i < 3 * l ==> LetterMajor(prefixes, letters, l)[i] == prefixes[i % 3] + [letters[i / 3]]
  {
    if l > 0 {
      LetterMajorAt(prefixes, letters, l - 1);
      ColumnAt(prefixes, [letters[l - 1]], 3);
      forall i | 3 * (l - 1) <= i < 3 * l
        ensures LetterMajor(prefixes, letters, l)[i] == prefixes[i % 3] + [letters[i / 3]]
      {
        InBlockOf3(i, l - 1);
        assert LetterMajor(prefixes, letters, l)[i] == Column(prefixes, [letters[l - 1]], 3)[i - 3 * (l - 1)];
      }
    }
  }

  /** The list holds 138 options, the i-th being OptionAt(i). */
  lemma OptionsClosedForm()
    ensures |Options()| == OptionCount
    ensures forall i :: 0 <= i < OptionCount ==> Options()[i] == OptionAt(i)
  {
    var prefixed := PrefixMajor(FKeyPrefixes, FKeys, 4);
    var letters := LetterMajor(LetterPrefixes, Letters, 26);
    BareKeysAt();
    PrefixedKeysAt(prefixed);
    LettersAt(letters);
    JoinedAt(Options(), prefixed, letters);
  }

  /** Joins the three groups' positions into positions of the whole list. */
  lemma JoinedAt(all: seq<string>, prefixed: seq<string>, letters: seq<string>)
    requires all == FKeys + prefixed + letters
    requires forall i :: 0 <= i < 12 ==> FKeys[i] == OptionAt(i)
    requires |prefixed| == 48 && forall i :: 0 <= i < 48 ==> prefixed[i] == OptionAt(i + 12)
    requires |letters| == 78 && forall i :: 0 <= i < 78 ==> letters[i] == OptionAt(i + 60)
    ensures |all| == OptionCount
    ensures forall i :: 0 <= i < OptionCount ==> all[i] == OptionAt(i)
  {
    forall i | 0 <= i < OptionCount
      ensures all[i] == OptionAt(i)
    {
      ThreePartsAt(FKeys, prefixed, letters, i);
      if i < 12 {
        assert all[i] == FKeys[i];
      } else if i < 60 {
        var j := i - 12;
        assert all[i] == prefixed[j];
        assert prefixed[j] == OptionAt(j + 12);
      } else {
        var j := i - 60;
        assert all[i] == letters[j];
        assert letters[j] == OptionAt(j + 60);
      }
    }
  }

  /** Where position `i` of a three-part concatenation falls. */
  lemma ThreePartsAt(a: seq<string>, b: seq<string>, c: seq<string>, i: int)
    requires 0 <= i < |a| + |b| + |c|
    ensures i < |a| ==> (a + b + c)[i] == a[i]
    ensures |a| <= i < |a| + |b| ==> (a + b + c)[i] == b[i - |a|]
    ensures |a| + |b| <= i ==> (a + b + c)[i] == c[i - |a| - |b|]
  {
  }

  lemma BareKeysAt()
    ensures forall i :: 0 <= i < 12 ==> FKeys[i] == OptionAt(i)
  {
    forall i | 0 <= i < 12
      ensures FKeys[i] == OptionAt(i)
    {
      assert OptionAt(i) == "" + FKeys[i];
    }
  }

  lemma PrefixedKeysAt(prefixed: seq<string>)
    requires prefixed == PrefixMajor(FKeyPrefixes, FKeys, 4)
    ensures |prefixed| == 48
    ensures forall i :: 0 <= i < 48 ==> prefixed[i] == OptionAt(i + 12)
  {
    PrefixMajorAt(FKeyPrefixes, FKeys, 4);
    forall i | 0 <= i < 48
      ensures prefixed[i] == OptionAt(i + 12)
    {
      assert OptionAt(i + 12) == FKeyPrefixes[i / 12] + FKeys[i % 12];
    }
  }

  lemma LettersAt(letters: seq<string>)
    requires letters == LetterMajor(LetterPrefixes, Letters, 26)
    ensures |letters| == 78
    ensures forall i :: 0 <= i < 78 ==> letters[i] == OptionAt(i + 60)
  {
    LetterMajorAt(LetterPrefixes, Letters, 26);
    forall i | 0 <= i < 78
      ensures letters[i] == OptionAt(i + 60)
    {
      assert OptionAt(i + 60) == LetterPrefixes[i % 3] + [Letters[i / 3]];
    }
  }

  /** No option is listed twice. */
  lemma OptionsDistinctAll()
    ensures forall i, j :: 0 <= i < j < OptionCount ==> OptionAt(i) != OptionAt(j)
  {
    forall i, j | 0 <= i < j < OptionCount
      ensures OptionAt(i) != OptionAt(j)
    {
      OptionsDistinct(i, j);
    }
  }

  /** The 138 options are pairwise distinct. */
  lemma OptionsAreDistinct()
    ensures forall i, j :: 0 <= i < j < |Options()| ==> Options()[i] != Options()[j]
  {
    OptionsClosedForm();
    OptionsDistinctAll();
  }

  predicate NoPlus(s: string) {
    forall k :: 0 <= k < |s| ==> s[k] != '+'
  }

  /** A modifier prefix: empty, or ending in '+'. */
  predicate IsPrefix(s: string) {
    s == [] || s[|s| - 1] == '+'
  }

  /** In a prefix followed by a key without '+', the last '+' closes the prefix. */
  lemma LastPlus(a: string, b: string)
    requires IsPrefix(a) && NoPlus(b)
    ensures forall k :: |a| <= k < |a + b| ==> (a + b)[k] != '+'
    ensures a != [] ==> (a + b)[|a| - 1] == '+'
  {
    forall k | |a| <= k < |a + b|
      ensures (a + b)[k] != '+'
    {
      assert (a + b)[k] == b[k - |a|];
    }
  }

  /** A prefix followed by a key without '+' splits in one way only. */
  lemma SplitUnique(a1: string, b1: string, a2: string, b2: string)
    requires IsPrefix(a1) && IsPrefix(a2) && NoPlus(b1) && NoPlus(b2)
    ensures a1 + b1 == a2 + b2 ==> a1 == a2 && b1 == b2
  {
    LastPlus(a1, b1);
    LastPlus(a2, b2);
    if a1 + b1 == a2 + b2 {
      var s := a1 + b1;
      assert |a1| == |a2|;
      assert a1 == s[..|a1|] == a2;
      assert b1 == s[|a1|..] == b2;
    }
  }

  lemma FKeysDistinct()
    ensures forall a, b :: 0 <= a < b < 12 ==> FKeys[a] != FKeys[b]
  {
  }

  /** Every option splits into a modifier prefix and a key without '+'. */
  lemma PartsShape(i: nat)
    requires i < OptionCount
    ensures IsPrefix(OptionParts(i).0) && NoPlus(OptionParts(i).1)
  {
    if i < 60 {
      FKeysShape();
      PrefixesShape();
    } else {
      PrefixesShape();
      LettersDistinct();
      var letter := Letters[(i - 60) / 3];
      assert OptionParts(i).1 == [letter];
    }
  }

  /** Every function key is at least two characters long and has no '+'. */
  lemma FKeysShape()
    ensures forall a :: 0 <= a < 12 ==> |FKeys[a]| >= 2 && NoPlus(FKeys[a])
  {
  }

  /** Every modifier prefix ends in '+'. */
  lemma PrefixesShape()
    ensures forall a :: 0 <= a < 4 ==> IsPrefix(FKeyPrefixes[a])
    ensures forall a :: 0 <= a < 3 ==> IsPrefix(LetterPrefixes[a])
  {
  }

  lemma LettersDistinct()
    ensures forall a :: 0 <= a < 26 ==> Letters[a] as int == 'A' as int + a
  {
  }

  lemma FKeyPrefixesDistinct()
    ensures forall a, b :: 0 <= a < b < 4 ==> FKeyPrefixes[a] != FKeyPrefixes[b]
  {
  }

  lemma LetterPrefixesDistinct()
    ensures forall a, b :: 0 <= a < b < 3 ==> LetterPrefixes[a] != LetterPrefixes[b]
  {
  }

  /** A position in block `q` of twelve has row `q` and column `i - 12 * q`. */
  lemma InBlockOf12(i: nat, q: nat)
    requires 12 * q <= i < 12 * q + 12
    ensures i / 12 == q && i % 12 == i - 12 * q
  {
  }

  /** A position in block `q` of three has row `q` and column `i - 3 * q`. */
  lemma InBlockOf3(i: nat, q: nat)
    requires 3 * q <= i < 3 * q + 3
    ensures i / 3 == q && i % 3 == i - 3 * q
  {
  }

  /** Two different positions differ in their row or in their column. */
  lemma RowColumnDistinct(a: nat, b: nat, n: nat)
    requires 0 < n && a < b
    ensures a / n != b / n || a % n != b % n
  {
    assert a == n * (a / n) + a % n;
    assert b == n * (b / n) + b % n;
  }

  /** Distinct positions have distinct prefix-key pairs. */
  lemma PartsDistinct(i: nat, j: nat)
    requires i < j < OptionCount
    ensures OptionParts(i) != OptionParts(j)
  {
    if j < 12 {
      FKeysDistinct();
    } else if i < 12 {
      assert OptionParts(j).0 != [];
    } else if j < 60 {
      RowColumnDistinct(i - 12, j - 12, 12);
      FKeyPrefixesDistinct();
      FKeysDistinct();
    } else if i < 60 {
      FKeysShape();
      assert |OptionParts(i).1| >= 2;
    } else {
      RowColumnDistinct(i - 60, j - 60, 3);
      LetterPrefixesDistinct();
      LettersDistinct();
    }
  }

  /** Distinct positions hold distinct options. */
  lemma OptionsDistinct(i: nat, j: nat)
    requires i < j < OptionCount
    ensures OptionAt(i) != OptionAt(j)
  {
    PartsShape(i);
    PartsShape(j);
    PartsDistinct(i, j);
    var (a1, b1) := OptionParts(i);
    var (a2, b2) := OptionParts(j);
    SplitUnique(a1, b1, a2, b2);
  }
}
