/** String joining as done by Python's `sep.join(parts)`. */
module Text {

  /** `sep.join(parts)`: the parts in order with `sep` between neighbours. */
  function Join(parts: seq<string>, sep: string): string
  {
    if |parts| == 0 then ""
    else if |parts| == 1 then parts[0]
    else parts[0] + sep + Join(parts[1..], sep)
  }

  /** Joining a concatenation is joining each half and putting one separator between. */
  lemma {:induction false} JoinAppend(a: seq<string>, b: seq<string>, sep: string)
    requires a != [] && b != []
    ensures Join(a + b, sep) == Join(a, sep) + sep + Join(b, sep)
  {
    if |a| == 1 {
      assert a + b == [a[0]] + b;
      assert (a + b)[1..] == b;
    } else {
      assert (a + b)[1..] == a[1..] + b;
      JoinAppend(a[1..], b, sep);
    }
  }

  /** Appending one part adds one separator and that part at the end. */
  lemma JoinSnoc(a: seq<string>, x: string, sep: string)
    requires a != []
    ensures Join(a + [x], sep) == Join(a, sep) + sep + x
  {
    JoinAppend(a, [x], sep);
  }

  /** With a non-empty separator the joined text is empty exactly when there is
      nothing to join or the only part is empty (Python's `if args` at a join). */
  lemma {:induction false} JoinEmptyIff(parts: seq<string>, sep: string)
    requires sep != ""
    ensures Join(parts, sep) == "" <==> |parts| == 0 || (|parts| == 1 && parts[0] == "")
  {
    if |parts| >= 2 {
      assert |Join(parts, sep)| >= |sep| > 0;
    }
  }

  /** The joined text starts with the first part. */
  lemma JoinStartsWithFirst(parts: seq<string>, sep: string)
    requires parts != []
    ensures parts[0] <= Join(parts, sep)
  {
  }

  /** The joined text ends with the last part. */
  lemma JoinEndsWithLast(parts: seq<string>, sep: string)
    requires parts != []
    ensures var j := Join(parts, sep); var l := parts[|parts| - 1];
            |l| <= |j| && j[|j| - |l|..] == l
  {
    if |parts| >= 2 {
      var init := parts[..|parts| - 1];
      assert parts == init + [parts[|parts| - 1]];
      JoinSnoc(init, parts[|parts| - 1], sep);
    }
  }

  /** Splitting the parts at any inner position splits the joined text at one separator. */
  lemma JoinSplit(parts: seq<string>, k: int, sep: string)
    requires 0 < k < |parts|
    ensures Join(parts, sep) == Join(parts[..k], sep) + sep + Join(parts[k..], sep)
  {
    assert parts == parts[..k] + parts[k..];
    JoinAppend(parts[..k], parts[k..], sep);
  }

  /** A header part, an empty part, a body and a final empty part: the text is the
      header, a separator, and (for the empty part) another separator before the rest. */
  lemma JoinFramed(h: string, body: seq<string>, sep: string)
    ensures Join([h] + [""] + body + [""], sep) == h + sep + (sep + Join(body + [""], sep))
  {
    var tail := body + [""];
    var parts := [h] + [""] + body + [""];
    assert parts[0] == h;
    assert parts[1..] == [""] + tail;
    assert ([""] + tail)[0] == "";
    assert ([""] + tail)[1..] == tail;
    assert Join([""] + tail, sep) == "" + sep + Join(tail, sep);
    assert "" + sep == sep;
  }

  /** Two or more parts ending in an empty one: the text ends with a separator. */
  lemma JoinEndsWithSep(parts: seq<string>, sep: string)
    requires |parts| >= 2 && parts[|parts| - 1] == ""
    ensures var r := Join(parts, sep); |sep| <= |r| && r[|r| - |sep|..] == sep
  {
    var init := parts[..|parts| - 1];
    assert parts == init + [""];
    JoinSnoc(init, "", sep);
  }

  /** The joined text of two or more parts starts with the first part and a separator. */
  lemma JoinStartsWithFirstAndSep(parts: seq<string>, sep: string)
    requires |parts| >= 2
    ensures parts[0] + sep <= Join(parts, sep)
  {
  }
}
