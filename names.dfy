/**
 * Splitting a recipient's display name into first and last name, as
 * `name.split(' ')[0]` and `name.split(' ').slice(1).join(' ')` do.
 */
module Names {

  const SPACE: char := ' '

  /** Number of occurrences of `c` in `s`. */
  function Occurrences(s: string, c: char): nat
  {
    if s == [] then 0 else (if s[0] == c then 1 else 0) + Occurrences(s[1..], c)
  }

  /**
   * String.prototype.split with a one-character separator: the pieces between
   * consecutive separators, empty pieces included, so there is always one more
   * piece than there are separators.
   */
  function Split(s: string, sep: char): (parts: seq<string>)
    ensures |parts| == Occurrences(s, sep) + 1
    ensures forall i :: 0 <= i < |parts| ==> sep !in parts[i]
    decreases |s|
  {
    if s == [] then [""]
    else
      var rest := Split(s[1..], sep);
      if s[0] == sep then [""] + rest
      else [[s[0]] + rest[0]] + rest[1..]
  }

  /** Array.prototype.join: the pieces with one separator between neighbours. */
  function Join(parts: seq<string>, sep: char): string
  {
    if parts == [] then ""
    else if |parts| == 1 then parts[0]
    else parts[0] + [sep] + Join(parts[1..], sep)
  }

  /** Splitting and joining on the same separator gives the string back. */
  lemma {:induction false} JoinSplit(s: string, sep: char)
    ensures Join(Split(s, sep), sep) == s
    decreases |s|
  {
    if s != [] {
      var rest := Split(s[1..], sep);
      JoinSplit(s[1..], sep);
      if s[0] == sep {
        assert Split(s, sep) == [""] + rest;
        assert ([""] + rest)[1..] == rest;
        assert s == [sep] + s[1..];
      } else {
        var parts := [[s[0]] + rest[0]] + rest[1..];
        assert Split(s, sep) == parts;
        if |rest| == 1 {
          assert Join(rest, sep) == rest[0];
        } else {
          assert parts[1..] == rest[1..];
          assert Join(rest, sep) == rest[0] + [sep] + Join(rest[1..], sep);
        }
        assert s == [s[0]] + s[1..];
      }
    }
  }

  /** Joining separator-free pieces and splitting again gives the pieces back. */
  lemma {:induction false} SplitJoin(parts: seq<string>, sep: char)
    requires |parts| >= 1
    requires forall i :: 0 <= i < |parts| ==> sep !in parts[i]
    ensures Split(Join(parts, sep), sep) == parts
    decreases |parts|, |parts[0]|
  {
    if |parts| == 1 {
      SplitPlain(parts[0], sep);
    } else if parts[0] == "" {
      var tail := Join(parts[1..], sep);
      SplitJoin(parts[1..], sep);
      assert Join(parts, sep) == [sep] + tail;
      assert ([sep] + tail)[1..] == tail;
      assert [""] + parts[1..] == parts;
    } else {
      var p := parts[0];
      var shorter := [p[1..]] + parts[1..];
      assert shorter[1..] == parts[1..];
      assert forall i :: 0 <= i < |shorter| ==> sep !in shorter[i] by {
        forall i | 0 <= i < |shorter| ensures sep !in shorter[i] {
          if i == 0 {
            assert forall k :: 0 <= k < |p[1..]| ==> p[1..][k] == p[k + 1];
          } else {
            assert shorter[i] == parts[i];
          }
        }
      }
      SplitJoin(shorter, sep);
      var whole := Join(parts, sep);
      assert whole == p + [sep] + Join(parts[1..], sep);
      assert Join(shorter, sep) == p[1..] + [sep] + Join(parts[1..], sep);
      assert whole[1..] == Join(shorter, sep);
      assert whole[0] == p[0] && p[0] != sep;
      var rest := Split(whole[1..], sep);
      assert rest == shorter;
      assert Split(whole, sep) == [[p[0]] + rest[0]] + rest[1..];
      assert [p[0]] + p[1..] == p;
    }
  }

  /** A string without the separator splits into itself alone. */
  lemma {:induction false} SplitPlain(s: string, sep: char)
    requires sep !in s
    ensures Split(s, sep) == [s]
    decreases |s|
  {
    if s != [] {
      assert sep !in s[1..] by {
        assert forall k :: 0 <= k < |s[1..]| ==> s[1..][k] == s[k + 1];
      }
      SplitPlain(s[1..], sep);
      assert [s[0]] + s[1..] == s;
    }
  }

  /** The string has the separator exactly when it occurs at least once. */
  lemma {:induction false} OccurrencesPositive(s: string, c: char)
    ensures Occurrences(s, c) > 0 <==> c in s
    decreases |s|
  {
    if s != [] {
      OccurrencesPositive(s[1..], c);
      assert s == [s[0]] + s[1..];
    }
  }

  /** The recipient's first name: the first space-separated token. */
  function FirstName(name: string): string
  {
    Split(name, SPACE)[0]
  }

  /** The recipient's last name: the remaining tokens joined with single spaces. */
  function LastName(name: string): string
  {
    Join(Split(name, SPACE)[1..], SPACE)
  }

  /**
   * A name with a space splits at its first space: the first name is the text
   * before it and the last name the text after it, so the two joined with a
   * space give the name back. A name without a space is all first name.
   */
  lemma NameParts(name: string)
    ensures SPACE !in FirstName(name)
    ensures SPACE in name ==> FirstName(name) + [SPACE] + LastName(name) == name
    ensures SPACE !in name ==> FirstName(name) == name && LastName(name) == ""
  {
    var parts := Split(name, SPACE);
    JoinSplit(name, SPACE);
    OccurrencesPositive(name, SPACE);
    if SPACE in name {
      assert |parts| >= 2;
      assert Join(parts, SPACE) == parts[0] + [SPACE] + Join(parts[1..], SPACE);
    } else {
      SplitPlain(name, SPACE);
    }
  }

  /** Whenever the last name is non-empty, first and last name joined with a space rebuild the name. */
  lemma NameReconstructs(name: string)
    requires LastName(name) != ""
    ensures FirstName(name) + [SPACE] + LastName(name) == name
  {
    NameParts(name);
  }

  /** A two-word name: "Ada Lovelace" gives ("Ada", "Lovelace"). */
  lemma TwoWordName()
    ensures FirstName("Ada Lovelace") == "Ada" && LastName("Ada Lovelace") == "Lovelace"
  {
    var parts := ["Ada", "Lovelace"];
    assert SPACE !in parts[0] && SPACE !in parts[1];
    assert Join(parts[1..], SPACE) == "Lovelace";
    assert Join(parts, SPACE) == "Ada Lovelace";
    SplitJoin(parts, SPACE);
  }

  /** A one-word name: "Prince" gives ("Prince", ""). */
  lemma OneWordName()
    ensures FirstName("Prince") == "Prince" && LastName("Prince") == ""
  {
    SplitPlain("Prince", SPACE);
  }
}
