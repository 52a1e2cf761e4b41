/** The record and enumeration types of the client. */
module Classes {
  import opened Wrappers
  import opened Text

  /** A C# `int`. */
  type int32 = x: int | -0x8000_0000 <= x < 0x8000_0000

  /** The kind carried by a trophy notification. */
  datatype TrophyEventType = Grant | Revoke

  /**
   * A trophy as the server describes it. `difficulty` and `achieved` are kept as the
   * server's text; nothing is validated.
   */
  datatype TrophyData = TrophyData(
    id: int32,
    title: string,
    difficulty: string,
    description: string,
    imageURL: string,
    achieved: string)
  {
    /** The one-line summary: five labelled fields in fixed order, without the image URL. */
    function ToString(): string
    {
      "ID: " + IntToDecimal(id) + ", Title: " + title + ", Difficulty: " + difficulty
      + ", Description: " + description + ", Achieved: " + achieved
    }
  }

  /** A user record; it keeps the JSON object it was built from (its field decoding is not modelled). */
  datatype UserData = UserData(json: map<string, string>)

  /** The labelled segments of a summary, as they sit between its commas. */
  function SummarySegments(t: TrophyData): seq<string>
  {
    ["ID: " + IntToDecimal(t.id), " Title: " + t.title, " Difficulty: " + t.difficulty,
     " Description: " + t.description, " Achieved: " + t.achieved]
  }

  predicate NoComma(t: TrophyData)
  {
    ',' !in t.title && ',' !in t.difficulty && ',' !in t.description && ',' !in t.achieved
  }

  /** When no text field holds a comma, the summary splits into exactly the five labelled fields, in order. */
  lemma SummaryLayout(t: TrophyData)
    requires NoComma(t)
    ensures Split(t.ToString(), ',') == SummarySegments(t)
  {
    var parts := SummarySegments(t);
    JoinFive(parts[0], parts[1], parts[2], parts[3], parts[4], ',');
    assert parts == [parts[0], parts[1], parts[2], parts[3], parts[4]];
    SummaryAsSegments(t);
    assert Join(parts, ',') == t.ToString();
    assert ',' !in IntToDecimal(t.id);
    forall i | 0 <= i < |parts| ensures ',' !in parts[i] {
    }
    SplitJoin(parts, ',');
  }

  lemma JoinFive(a: string, b: string, c: string, d: string, e: string, sep: char)
    ensures Join([a, b, c, d, e], sep) == a + [sep] + b + [sep] + c + [sep] + d + [sep] + e
  {
    assert [a, b, c, d, e][1..] == [b, c, d, e];
    assert [b, c, d, e][1..] == [c, d, e];
    assert [c, d, e][1..] == [d, e];
    assert [d, e][1..] == [e];
    var de := d + [sep] + e;
    assert Join([d, e], sep) == de;
    var cde := c + [sep] + de;
    assert Join([c, d, e], sep) == cde;
    var bcde := b + [sep] + cde;
    assert Join([b, c, d, e], sep) == bcde;
    assert Join([a, b, c, d, e], sep) == a + [sep] + bcde;
    assert a + [sep] + bcde == a + [sep] + b + [sep] + c + [sep] + d + [sep] + e;
  }

  lemma SummaryAsSegments(t: TrophyData)
    ensures t.ToString() == ("ID: " + IntToDecimal(t.id)) + [','] + (" Title: " + t.title) + [',']
      + (" Difficulty: " + t.difficulty) + [','] + (" Description: " + t.description) + [',']
      + (" Achieved: " + t.achieved)
  {
    assert ", Title: " == [','] + " Title: ";
    assert ", Difficulty: " == [','] + " Difficulty: ";
    assert ", Description: " == [','] + " Description: ";
    assert ", Achieved: " == [','] + " Achieved: ";
  }

  predicate HasPrefix(s: string, prefix: string)
  {
    |prefix| <= |s| && s[..|prefix|] == prefix
  }

  /** Reads a summary back into a trophy; the image URL, which the summary omits, comes back empty. */
  function ParseSummary(s: string): Option<TrophyData>
  {
    var parts := Split(s, ',');
    if |parts| != 5 || !HasPrefix(parts[0], "ID: ") || !HasPrefix(parts[1], " Title: ")
       || !HasPrefix(parts[2], " Difficulty: ") || !HasPrefix(parts[3], " Description: ")
       || !HasPrefix(parts[4], " Achieved: ")
    then None
    else match ParseDecimal(parts[0][4..])
      case Some(id) =>
        if -0x8000_0000 <= id < 0x8000_0000 then
          Some(TrophyData(id, parts[1][8..], parts[2][13..], parts[3][14..], "", parts[4][11..]))
        else None
      case None => None
  }

  /** Every field of the summary is recoverable, and the image URL is not in it. */
  lemma SummaryRoundTrip(t: TrophyData)
    requires NoComma(t)
    ensures ParseSummary(t.ToString()) == Some(t.(imageURL := ""))
  {
    SummaryLayout(t);
    var parts := SummarySegments(t);
    assert parts[0][4..] == IntToDecimal(t.id);
    assert parts[1][8..] == t.title;
    assert parts[2][13..] == t.difficulty;
    assert parts[3][14..] == t.description;
    assert parts[4][11..] == t.achieved;
    IntDecimalRoundTrip(t.id);
  }

  /** The summary does not depend on the image URL at all. */
  lemma SummaryIgnoresImageURL(t: TrophyData, url: string)
    ensures t.(imageURL := url).ToString() == t.ToString()
  {
  }
}
