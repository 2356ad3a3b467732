/** The string sanitising of the bot: `idToString` (utils.ts) and the
    sanitise-and-split of a comma separated id list (index.ts). */
module Text {

  predicate IsAsciiAlnum(c: char)
  {
    ('a' <= c <= 'z') || ('A' <= c <= 'Z') || ('0' <= c <= '9')
  }

  /** The characters a configured id list keeps: letters, digits and commas. */
  predicate IsIdListChar(c: char)
  {
    IsAsciiAlnum(c) || c == ','
  }

  /** The characters of `s` that satisfy `p`, in their original order
      (a global regular-expression replace of the complement by ''). */
  function Keep(s: string, p: char -> bool): (r: string)
    ensures |r| <= |s|
    ensures forall i :: 0 <= i < |r| ==> p(r[i])
  {
    if s == [] then []
    else if p(s[0]) then [s[0]] + Keep(s[1..], p)
    else Keep(s[1..], p)
  }

  /** `idToString`: drop every character that is not an ASCII letter or digit. */
  function IdToString(id: string): (r: string)
    ensures |r| <= |id|
    ensures forall i :: 0 <= i < |r| ==> IsAsciiAlnum(r[i])
  {
    Keep(id, IsAsciiAlnum)
  }

  lemma {:induction false} KeepAppend(a: string, b: string, p: char -> bool)
    ensures Keep(a + b, p) == Keep(a, p) + Keep(b, p)
  {
    if a != [] {
      assert (a + b)[1..] == a[1..] + b;
      KeepAppend(a[1..], b, p);
    } else {
      assert a + b == b;
    }
  }

  /** A string all of whose characters pass `p` is kept whole. */
  lemma {:induction false} KeepAllPass(s: string, p: char -> bool)
    requires forall i :: 0 <= i < |s| ==> p(s[i])
    ensures Keep(s, p) == s
  {
    if s != [] {
      KeepAllPass(s[1..], p);
    }
  }

  /** A string none of whose characters passes `p` is dropped whole. */
  lemma {:induction false} KeepNone(s: string, p: char -> bool)
    requires forall i :: 0 <= i < |s| ==> !p(s[i])
    ensures Keep(s, p) == []
  {
    if s != [] {
      KeepNone(s[1..], p);
    }
  }

  /** Every occurrence of a kept character survives, every other one is gone:
      the filter loses and invents nothing. */
  lemma {:induction false} KeepCounts(s: string, p: char -> bool, c: char)
    ensures multiset(Keep(s, p))[c] == if p(c) then multiset(s)[c] else 0
  {
    if s != [] {
      KeepCounts(s[1..], p, c);
      assert s == [s[0]] + s[1..];
      assert multiset(s) == multiset([s[0]]) + multiset(s[1..]);
      if p(s[0]) {
        assert multiset([s[0]] + Keep(s[1..], p)) == multiset([s[0]]) + multiset(Keep(s[1..], p));
      }
    }
  }

  /** `idToString` yields only ASCII letters and digits, keeps each of them
      (with its multiplicity, and in order, since it distributes over
      concatenation) and is idempotent. */
  lemma IdToStringSpec(id: string)
    ensures forall i :: 0 <= i < |IdToString(id)| ==> IsAsciiAlnum(IdToString(id)[i])
    ensures forall c :: multiset(IdToString(id))[c] == if IsAsciiAlnum(c) then multiset(id)[c] else 0
    ensures IdToString(IdToString(id)) == IdToString(id)
  {
    forall c ensures multiset(IdToString(id))[c] == if IsAsciiAlnum(c) then multiset(id)[c] else 0 {
      KeepCounts(id, IsAsciiAlnum, c);
    }
    KeepAllPass(IdToString(id), IsAsciiAlnum);
  }

  lemma IdToStringAppend(a: string, b: string)
    ensures IdToString(a + b) == IdToString(a) + IdToString(b)
  {
    KeepAppend(a, b, IsAsciiAlnum);
  }

  /** JavaScript's `String.prototype.split` with a one-character separator:
      the pieces between separators, including empty ones; `""` splits
      into `[""]`. */
  function Split(s: string, sep: char): (parts: seq<string>)
    ensures |parts| >= 1
  {
    if s == [] then [""]
    else if s[0] == sep then [""] + Split(s[1..], sep)
    else
      var rest := Split(s[1..], sep);
      [[s[0]] + rest[0]] + rest[1..]
  }

  /** `Array.prototype.join` with a one-character separator. */
  function Join(parts: seq<string>, sep: char): string
    requires |parts| >= 1
  {
    if |parts| == 1 then parts[0] else parts[0] + [sep] + Join(parts[1..], sep)
  }

  predicate Free(s: string, sep: char)
  {
    forall i :: 0 <= i < |s| ==> s[i] != sep
  }

  /** Splitting loses nothing: joining the pieces gives the string back, and
      no piece holds the separator. */
  lemma {:induction false} JoinSplit(s: string, sep: char)
    ensures Join(Split(s, sep), sep) == s
    ensures forall k :: 0 <= k < |Split(s, sep)| ==> Free(Split(s, sep)[k], sep)
  {
    if s != [] {
      JoinSplit(s[1..], sep);
      var rest := Split(s[1..], sep);
      if s[0] == sep {
        assert Split(s, sep)[1..] == rest;
        assert s == [sep] + s[1..];
      } else {
        var parts := Split(s, sep);
        assert parts[1..] == rest[1..];
        if |rest| == 1 {
          assert s == [s[0]] + rest[0];
        } else {
          assert Join(rest, sep) == rest[0] + [sep] + Join(rest[1..], sep);
          assert s == [s[0]] + rest[0] + [sep] + Join(rest[1..], sep);
        }
        assert Free(parts[0], sep) by {
          assert parts[0] == [s[0]] + rest[0];
        }
      }
    }
  }

  /** The converse round trip: separator-free pieces are split back out of
      their join. */
  lemma {:induction false} SplitJoin(parts: seq<string>, sep: char)
    requires |parts| >= 1
    requires forall k :: 0 <= k < |parts| ==> Free(parts[k], sep)
    ensures Split(Join(parts, sep), sep) == parts
  {
    if |parts| == 1 {
      SplitFree(parts[0], sep);
    } else {
      SplitJoin(parts[1..], sep);
      SplitPrefix(parts[0], Join(parts[1..], sep), sep);
      assert parts == [parts[0]] + parts[1..];
    }
  }

  lemma {:induction false} SplitFree(s: string, sep: char)
    requires Free(s, sep)
    ensures Split(s, sep) == [s]
  {
    if s != [] {
      SplitFree(s[1..], sep);
      assert s == [s[0]] + s[1..];
    }
  }

  /** Splitting `a + sep + b` for separator-free `a`. */
  lemma {:induction false} SplitPrefix(a: string, b: string, sep: char)
    requires Free(a, sep)
    ensures Split(a + [sep] + b, sep) == [a] + Split(b, sep)
  {
    if a == [] {
      assert a + [sep] + b == [sep] + b;
      assert ([sep] + b)[1..] == b;
    } else {
      SplitPrefix(a[1..], b, sep);
      assert (a + [sep] + b)[1..] == a[1..] + [sep] + b;
      assert a == [a[0]] + a[1..];
    }
  }

  /** The sanitise-and-split of `getStatisticsSourceDBIdList` for a value that
      is present and non-empty. */
  function SanitizedIdList(value: string): seq<string>
  {
    Split(Keep(value, IsIdListChar), ',')
  }

  /** The ids of a sanitised list are made of letters and digits only, there
      is at least one of them (so the length check never fails), and joined
      back with commas they give exactly the letters, digits and commas of
      the configured value, in order. */
  lemma SanitizedIdListSpec(value: string)
    ensures |SanitizedIdList(value)| >= 1
    ensures Join(SanitizedIdList(value), ',') == Keep(value, IsIdListChar)
    ensures forall k :: 0 <= k < |SanitizedIdList(value)| ==>
              IdToString(SanitizedIdList(value)[k]) == SanitizedIdList(value)[k]
  {
    var kept := Keep(value, IsIdListChar);
    JoinSplit(kept, ',');
    forall k | 0 <= k < |SanitizedIdList(value)|
      ensures IdToString(SanitizedIdList(value)[k]) == SanitizedIdList(value)[k]
    {
      var part := SanitizedIdList(value)[k];
      JoinedPartChars(SanitizedIdList(value), ',', k);
      assert forall i :: 0 <= i < |part| ==> IsAsciiAlnum(part[i]) by {
        forall i | 0 <= i < |part| ensures IsAsciiAlnum(part[i]) {
          assert part[i] in kept;
          var j :| 0 <= j < |kept| && kept[j] == part[i];
          assert IsIdListChar(kept[j]);
        }
      }
      KeepAllPass(part, IsAsciiAlnum);
    }
  }

  /** Every character of a piece appears in the joined string. */
  lemma {:induction false} JoinedPartChars(parts: seq<string>, sep: char, k: nat)
    requires |parts| >= 1 && k < |parts|
    ensures forall i :: 0 <= i < |parts[k]| ==> parts[k][i] in Join(parts, sep)
  {
    if |parts| > 1 {
      var rest := Join(parts[1..], sep);
      assert Join(parts, sep) == parts[0] + [sep] + rest;
      if k == 0 {
        forall i | 0 <= i < |parts[0]| ensures parts[0][i] in Join(parts, sep) {
          assert Join(parts, sep)[i] == parts[0][i];
        }
      } else {
        JoinedPartChars(parts[1..], sep, k - 1);
        forall i | 0 <= i < |parts[k]| ensures parts[k][i] in Join(parts, sep) {
          assert parts[k][i] in rest;
          var j :| 0 <= j < |rest| && rest[j] == parts[k][i];
          assert Join(parts, sep)[|parts[0]| + 1 + j] == rest[j];
        }
      }
    }
  }

  predicate IsHexDigit(c: char)
  {
    ('0' <= c <= '9') || ('a' <= c <= 'f') || ('A' <= c <= 'F')
  }

  /** A store id written without dashes: 32 hexadecimal digits. */
  predicate IsCompactId(s: string)
  {
    |s| == 32 && forall i :: 0 <= i < |s| ==> IsHexDigit(s[i])
  }
}
