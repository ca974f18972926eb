/**
 * Java's `String.split(",")` (a one-character, non-regex pattern with limit 0):
 * the string is cut at every comma, and trailing empty fields are removed;
 * a string with no comma at all is returned whole, as a one-element array.
 */
module JavaText {

  /** Every comma-separated field of `s`, empty ones included: one more than the commas. */
  function Fields(s: string): (r: seq<string>)
    ensures |r| >= 1
  {
    if |s| == 0 then [""]
    else
      var rest := Fields(s[1..]);
      if s[0] == ',' then [""] + rest
      else [[s[0]] + rest[0]] + rest[1..]
  }

  /** The fields glued back together with commas. */
  function Join(fields: seq<string>): string
    requires |fields| >= 1
  {
    if |fields| == 1 then fields[0]
    else fields[0] + "," + Join(fields[1..])
  }

  /** The longest prefix of `fields` that does not end in an empty field. */
  function DropTrailingEmpty(fields: seq<string>): seq<string>
  {
    if |fields| == 0 then []
    else if fields[|fields| - 1] == "" then DropTrailingEmpty(fields[..|fields| - 1])
    else fields
  }

  /** `s.split(",")` as Java computes it: a string without a comma is one field. */
  function Split(s: string): seq<string>
  {
    var fields := Fields(s);
    if |fields| == 1 then [s] else DropTrailingEmpty(fields)
  }

  /** No field contains the separator. */
  lemma {:induction false} FieldsHaveNoComma(s: string)
    ensures forall i :: 0 <= i < |Fields(s)| ==> ',' !in Fields(s)[i]
  {
    if |s| > 0 {
      FieldsHaveNoComma(s[1..]);
    }
  }

  /** A string has a single field exactly when it has no comma. */
  lemma {:induction false} OneFieldIffNoComma(s: string)
    ensures |Fields(s)| == 1 <==> ',' !in s
  {
    if ',' !in s {
      NoCommaIsOneField(s);
    } else if |s| > 0 {
      OneFieldIffNoComma(s[1..]);
      if s[0] != ',' {
        assert ',' in s[1..] by {
          var i :| 0 <= i < |s| && s[i] == ',';
          assert s[1..][i - 1] == ',';
        }
      }
    }
  }

  /**
   * Removing trailing empty fields keeps a prefix, removes only empty fields, and leaves
   * no empty field at the end.
   */
  lemma {:induction false} DropTrailingEmptyIsPrefix(fields: seq<string>)
    ensures var r := DropTrailingEmpty(fields);
      && |r| <= |fields| && r == fields[..|r|]
      && (forall i :: |r| <= i < |fields| ==> fields[i] == "")
      && (r == [] || r[|r| - 1] != "")
  {
    if |fields| > 0 && fields[|fields| - 1] == "" {
      DropTrailingEmptyIsPrefix(fields[..|fields| - 1]);
    }
  }

  /**
   * What Java's split returns: the whole string when it has no comma; otherwise its
   * fields up to the last non-empty one.
   */
  lemma SplitIsFieldsWithoutTrailingEmpties(s: string)
    ensures ',' !in s ==> Split(s) == [s]
    ensures ',' in s ==>
      var r := Split(s);
      && |r| <= |Fields(s)| && r == Fields(s)[..|r|]
      && (forall i :: |r| <= i < |Fields(s)| ==> Fields(s)[i] == "")
      && (r == [] || r[|r| - 1] != "")
  {
    OneFieldIffNoComma(s);
    DropTrailingEmptyIsPrefix(Fields(s));
  }

  /** Splitting and joining are inverse: no character of the line is lost or invented. */
  lemma {:induction false} JoinFields(s: string)
    ensures Join(Fields(s)) == s
  {
    if |s| > 0 {
      JoinFields(s[1..]);
      var rest := Fields(s[1..]);
      if s[0] == ',' {
        assert Fields(s)[1..] == rest;
      } else {
        var r := Fields(s);
        assert r[0] == [s[0]] + rest[0] && r[1..] == rest[1..];
        if |rest| == 1 {
          assert s == [s[0]] + s[1..];
        } else {
          assert Join(rest) == rest[0] + "," + Join(rest[1..]);
          assert s == [s[0]] + s[1..];
        }
      }
    }
  }

  /** Joining comma-free fields and splitting again gives back the same fields. */
  lemma {:induction false} FieldsJoin(fields: seq<string>)
    requires |fields| >= 1
    requires forall i :: 0 <= i < |fields| ==> ',' !in fields[i]
    ensures Fields(Join(fields)) == fields
  {
    if |fields| == 1 {
      NoCommaIsOneField(fields[0]);
    } else {
      FieldsJoin(fields[1..]);
      FieldsAppend(fields[0], Join(fields[1..]));
      NoCommaIsOneField(fields[0]);
      assert fields == [fields[0]] + fields[1..];
    }
  }

  /** A comma-free string is a single field. */
  lemma {:induction false} NoCommaIsOneField(s: string)
    requires ',' !in s
    ensures Fields(s) == [s]
  {
    if |s| > 0 {
      assert ',' !in s[1..] by {
        forall i | 0 <= i < |s[1..]| ensures s[1..][i] != ',' {
          assert s[1..][i] == s[i + 1];
        }
      }
      NoCommaIsOneField(s[1..]);
      assert s == [s[0]] + s[1..];
    }
  }

  /** Cutting at one comma splits the field list in two. */
  lemma {:induction false} FieldsAppend(a: string, b: string)
    ensures Fields(a + "," + b) == Fields(a) + Fields(b)
  {
    if |a| == 0 {
      assert a + "," + b == [','] + b;
      assert (a + "," + b)[1..] == b;
    } else {
      var ab := a + "," + b;
      assert ab[0] == a[0];
      assert ab[1..] == a[1..] + "," + b;
      FieldsAppend(a[1..], b);
    }
  }

  /** Appending fields never shortens what survives the removal of trailing empty fields. */
  lemma {:induction false} DropTrailingEmptyPrefix(a: seq<string>, b: seq<string>)
    ensures |DropTrailingEmpty(a)| <= |DropTrailingEmpty(a + b)|
    ensures DropTrailingEmpty(a + b)[..|DropTrailingEmpty(a)|] == DropTrailingEmpty(a)
  {
    if |b| == 0 {
      assert a + b == a;
    } else if b[|b| - 1] == "" {
      assert (a + b)[..|a + b| - 1] == a + b[..|b| - 1];
      DropTrailingEmptyPrefix(a, b[..|b| - 1]);
    } else {
      assert (a + b)[|a + b| - 1] != "";
      assert DropTrailingEmpty(a + b) == a + b;
      assert (a + b)[..|a|] == a;
      DropTrailingEmptyIsPrefix(a);
    }
  }

  /**
   * Text appended after one more comma does not disturb the first three fields of a
   * line that already has three.
   */
  lemma {:induction false} SplitKeepsLeadingFields(line: string, extra: string)
    requires |Split(line)| >= 3
    ensures |Split(line + "," + extra)| >= 3
    ensures Split(line + "," + extra)[..3] == Split(line)[..3]
  {
    var longer := line + "," + extra;
    FieldsAppend(line, extra);
    assert Split(line) == DropTrailingEmpty(Fields(line));
    assert Split(longer) == DropTrailingEmpty(Fields(longer));
    DropTrailingEmptyPrefix(Fields(line), Fields(extra));
  }
}
