/** The vCard 3.0 text the display page builds from the stored record and hands
    to the QR encoder, and the line structure of that text.
    The serialiser writes what the page writes: no escaping of `;`, `,` or `\`
    in values, the whole full name in the family-name component of `N`, and a
    bare newline between lines. */
module VCard {
  import opened ContactRecord

  const LinkedInProfilePrefix := "https://linkedin.com/in/"

  /** `generateVCard(data)`: the template literal, one line per row. */
  function VCard(c: Contact): string {
    "BEGIN:VCARD" + "\n"
    + "VERSION:3.0" + "\n"
    + "N:" + Text(c.fullName) + ";;;" + "\n"
    + "FN:" + Text(c.fullName) + "\n"
    + "TEL:" + Text(c.mobileNumber) + "\n"
    + "EMAIL:" + Text(c.email) + "\n"
    + "URL:" + LinkedInProfilePrefix + Text(c.linkedIn) + "\n"
    + "END:VCARD"
  }

  /** The eight lines a vCard of `c` is meant to consist of, in order. */
  function CardLines(c: Contact): seq<string> {
    [ "BEGIN:VCARD",
      "VERSION:3.0",
      "N:" + Text(c.fullName) + ";;;",
      "FN:" + Text(c.fullName),
      "TEL:" + Text(c.mobileNumber),
      "EMAIL:" + Text(c.email),
      "URL:" + LinkedInProfilePrefix + Text(c.linkedIn),
      "END:VCARD" ]
  }

  /** Number of newline characters in `s`. */
  function Newlines(s: string): nat {
    multiset(s)['\n']
  }

  /** `s.split("\n")`: the pieces of `s` between newlines; there is always at
      least one. */
  function Lines(s: string): (r: seq<string>)
    ensures |r| >= 1
  {
    if s == [] then [""] else ConsLines(s[0], Lines(s[1..]))
  }

  /** `lines.join("\n")`. */
  function Join(lines: seq<string>): (s: string)
    requires |lines| >= 1
  {
    if |lines| == 1 then lines[0]
    else lines[0] + "\n" + Join(lines[1..])
  }

  /** There is one more line than there are newlines, and no line holds a
      newline. */
  lemma {:induction false} LinesShape(s: string)
    ensures |Lines(s)| == Newlines(s) + 1
    ensures forall i :: 0 <= i < |Lines(s)| ==> '\n' !in Lines(s)[i]
  {
    if s != [] {
      LinesShape(s[1..]);
      assert s == [s[0]] + s[1..];
      assert multiset(s) == multiset([s[0]]) + multiset(s[1..]);
    }
  }

  /** Splitting on newlines and joining again gives back the text. */
  lemma {:induction false} JoinLines(s: string)
    ensures Join(Lines(s)) == s
  {
    if s != [] {
      JoinLines(s[1..]);
      LinesCons(s[0], s[1..]);
      JoinCons(s[0], Lines(s[1..]));
      assert [s[0]] + s[1..] == s;
    }
  }

  /** Joining the lines of `[ch] + t` puts `ch` in front of the joined lines
      of `t`. */
  lemma JoinCons(ch: char, lines: seq<string>)
    requires |lines| >= 1
    ensures Join(ConsLines(ch, lines)) == [ch] + Join(lines)
  {
    var r := ConsLines(ch, lines);
    if ch == '\n' {
      assert r == [""] + lines && |r| >= 2;
      assert r[1..] == lines;
      assert Join(r) == "" + "\n" + Join(lines);
    } else if |lines| == 1 {
      assert r == [[ch] + lines[0]];
    } else {
      JoinConsLonger(ch, lines);
    }
  }

  /** `JoinCons` for a character other than a newline and at least two lines. */
  lemma JoinConsLonger(ch: char, lines: seq<string>)
    requires ch != '\n' && |lines| >= 2
    ensures Join(ConsLines(ch, lines)) == [ch] + Join(lines)
  {
    var r := ConsLines(ch, lines);
    var first, rest := lines[0], Join(lines[1..]);
    assert r[0] == [ch] + first && r[1..] == lines[1..] && |r| >= 2;
    assert Join(r) == r[0] + "\n" + Join(r[1..]);
    assert Join(lines) == first + "\n" + rest;
    Associate([ch], first, "\n", rest);
  }

  /** A newline-free prefix extends the first line and leaves the others. */
  lemma {:induction false} LinesOfPrefix(a: string, t: string)
    requires '\n' !in a
    ensures Lines(a + t) == [a + Lines(t)[0]] + Lines(t)[1..]
  {
    var lt := Lines(t);
    if a != [] {
      LinesOfPrefix(a[1..], t);
      assert a[0] in a;
      assert a + t == [a[0]] + (a[1..] + t);
      LinesCons(a[0], a[1..] + t);
      assert [a[0]] + (a[1..] + lt[0]) == a + lt[0];
    } else {
      assert a + t == t;
      assert a + lt[0] == lt[0];
      assert [lt[0]] + lt[1..] == lt;
    }
  }

  /** Joining newline-free lines and splitting again gives back the lines. */
  lemma {:induction false} LinesOfJoin(lines: seq<string>)
    requires |lines| >= 1
    requires forall i :: 0 <= i < |lines| ==> '\n' !in lines[i]
    ensures Lines(Join(lines)) == lines
  {
    if |lines| == 1 {
      LinesOfPrefix(lines[0], "");
      assert lines[0] + "" == lines[0];
    } else {
      var tail := Join(lines[1..]);
      LinesOfJoin(lines[1..]);
      var nt := "\n" + tail;
      assert Lines(nt) == [""] + Lines(tail) by {
        assert nt[0] == '\n';
        assert nt[1..] == tail;
      }
      LinesOfPrefix(lines[0], nt);
      assert Join(lines) == lines[0] + nt;
      assert Lines(nt)[0] == "" && Lines(nt)[1..] == lines[1..];
      assert lines[0] + "" == lines[0];
      assert lines == [lines[0]] + lines[1..];
    }
  }

  /** Appending a line appends a newline and that line. */
  lemma {:induction false} JoinSnoc(lines: seq<string>, line: string)
    requires |lines| >= 1
    ensures Join(lines + [line]) == Join(lines) + "\n" + line
  {
    if |lines| > 1 {
      JoinSnoc(lines[1..], line);
      assert (lines + [line])[1..] == lines[1..] + [line];
    } else {
      assert (lines + [line])[1..] == [line];
    }
  }

  /** Eight lines joined with newlines, written out. */
  lemma JoinEight(a: string, b: string, c: string, d: string,
                  e: string, f: string, g: string, h: string)
    ensures Join([a, b, c, d, e, f, g, h]) ==
      a + "\n" + b + "\n" + c + "\n" + d + "\n" + e + "\n" + f + "\n" + g + "\n" + h
  {
    JoinSnoc([a], b);
    assert [a] + [b] == [a, b];
    JoinSnoc([a, b], c);
    assert [a, b] + [c] == [a, b, c];
    JoinSnoc([a, b, c], d);
    assert [a, b, c] + [d] == [a, b, c, d];
    JoinSnoc([a, b, c, d], e);
    assert [a, b, c, d] + [e] == [a, b, c, d, e];
    JoinSnoc([a, b, c, d, e], f);
    assert [a, b, c, d, e] + [f] == [a, b, c, d, e, f];
    JoinSnoc([a, b, c, d, e, f], g);
    assert [a, b, c, d, e, f] + [g] == [a, b, c, d, e, f, g];
    JoinSnoc([a, b, c, d, e, f, g], h);
    assert [a, b, c, d, e, f, g] + [h] == [a, b, c, d, e, f, g, h];
  }

  /** The vCard text is its eight lines with a newline between each two. */
  lemma VCardSpelledOut(c: Contact)
    ensures var l := CardLines(c);
      VCard(c) == l[0] + "\n" + l[1] + "\n" + l[2] + "\n" + l[3] + "\n"
                  + l[4] + "\n" + l[5] + "\n" + l[6] + "\n" + l[7]
  {
    var name, tel, email, user := Text(c.fullName), Text(c.mobileNumber), Text(c.email), Text(c.linkedIn);
    var nl := "\n";
    var q1 := "BEGIN:VCARD" + nl + "VERSION:3.0" + nl;
    Regroup(q1, "N:", name, ";;;");
    var q2 := q1 + "N:" + name + ";;;" + nl;
    Regroup(q2, "FN:", name, nl);
    var q3 := q2 + "FN:" + name + nl;
    Regroup(q3, "TEL:", tel, nl);
    var q4 := q3 + "TEL:" + tel + nl;
    Regroup(q4, "EMAIL:", email, nl);
    var q5 := q4 + "EMAIL:" + email + nl;
    Regroup(q5, "URL:", LinkedInProfilePrefix, user);
    Regroup(q5, "URL:" + LinkedInProfilePrefix, user, nl);
  }

  /** The vCard text is its eight lines joined with newlines. */
  lemma VCardIsJoinedLines(c: Contact)
    ensures VCard(c) == Join(CardLines(c))
  {
    var l := CardLines(c);
    VCardSpelledOut(c);
    JoinEight(l[0], l[1], l[2], l[3], l[4], l[5], l[6], l[7]);
    assert l == [l[0], l[1], l[2], l[3], l[4], l[5], l[6], l[7]];
  }

  /** Joined lines start with the first two lines, each followed by a
      newline, and end with a newline and the last line. */
  lemma JoinEnds(ls: seq<string>)
    requires |ls| >= 3
    ensures ls[0] + "\n" + ls[1] + "\n" <= Join(ls)
    ensures var j, tail := Join(ls), "\n" + ls[|ls| - 1];
      |tail| <= |j| && j[|j| - |tail|..] == tail
  {
    var rest := Join(ls[2..]);
    assert ls[1..][1..] == ls[2..];
    assert Join(ls[1..]) == ls[1] + "\n" + rest;
    Associate(ls[0] + "\n", ls[1], "\n", rest);
    var head := ls[0] + "\n" + ls[1] + "\n";
    assert Join(ls) == head + rest;
    assert (head + rest)[..|head|] == head;
    var n := |ls| - 1;
    assert ls == ls[..n] + [ls[n]];
    JoinSnoc(ls[..n], ls[n]);
    var front := Join(ls[..n]);
    var tail := "\n" + ls[n];
    assert Join(ls) == front + tail;
    assert (front + tail)[|front|..] == tail;
  }

  /** The card opens with its BEGIN and VERSION lines and closes with its END
      line, whatever the record holds. */
  lemma VCardEnvelope(c: Contact)
    ensures "BEGIN:VCARD\nVERSION:3.0\n" <= VCard(c)
    ensures var r := VCard(c); |r| >= 10 && r[|r| - 10..] == "\nEND:VCARD"
  {
    var l := CardLines(c);
    VCardIsJoinedLines(c);
    JoinEnds(l);
    EnvelopeText();
  }

  /** The card's opening and closing text, spelled out. */
  lemma EnvelopeText()
    ensures "BEGIN:VCARD" + "\n" + "VERSION:3.0" + "\n" == "BEGIN:VCARD\nVERSION:3.0\n"
    ensures "\n" + "END:VCARD" == "\nEND:VCARD"
  {
  }

  /** Concatenation regrouped: `p + q + u + v == p + (q + u + v)`. */
  lemma Associate(p: string, q: string, u: string, v: string)
    ensures p + q + u + v == p + (q + u + v)
  {
  }

  /** Concatenation regrouped: `x + a + b + y == x + (a + b) + y`. */
  lemma Regroup(x: string, a: string, b: string, y: string)
    ensures x + a + b + y == x + (a + b) + y
  {
  }

  /** When none of the serialised values holds a newline, the card splits into
      exactly BEGIN, VERSION, N, FN, TEL, EMAIL, URL and END, in that order. */
  lemma VCardLines(c: Contact)
    requires '\n' !in Text(c.fullName) && '\n' !in Text(c.mobileNumber)
    requires '\n' !in Text(c.email) && '\n' !in Text(c.linkedIn)
    ensures Lines(VCard(c)) == CardLines(c)
  {
    VCardIsJoinedLines(c);
    var l := CardLines(c);
    forall i | 0 <= i < |l| ensures '\n' !in l[i] {
    }
    LinesOfJoin(l);
  }

  /** Concatenating two texts merges the last line of the first with the
      first line of the second. */
  lemma {:induction false} LinesAppend(a: string, b: string)
    ensures |Lines(a + b)| == |Lines(a)| + |Lines(b)| - 1
  {
    if a == [] {
      assert a + b == b;
    } else {
      LinesAppend(a[1..], b);
      assert (a + b)[1..] == a[1..] + b;
    }
  }

  /** A newline-free text is a single line. */
  lemma {:induction false} OneLine(s: string)
    requires '\n' !in s
    ensures |Lines(s)| == 1
  {
    if s != [] {
      assert s[0] in s;
      OneLine(s[1..]);
    }
  }

  /** The lines of a text once `ch` is put in front of it, given the lines of
      the text: a newline opens an empty first line, any other character
      joins the first line. */
  function ConsLines(ch: char, lines: seq<string>): (r: seq<string>)
    requires |lines| >= 1
    ensures |r| == if ch == '\n' then |lines| + 1 else |lines|
  {
    if ch == '\n' then [""] + lines else [[ch] + lines[0]] + lines[1..]
  }

  lemma LinesCons(ch: char, t: string)
    ensures Lines([ch] + t) == ConsLines(ch, Lines(t))
  {
    assert ([ch] + t)[0] == ch && ([ch] + t)[1..] == t;
  }

  /** Putting a character in front only touches the first line, so it
      commutes with appending further lines. */
  lemma ConsLinesAppend(ch: char, la: seq<string>, lb: seq<string>)
    requires |la| >= 1
    ensures ConsLines(ch, la + lb) == ConsLines(ch, la) + lb
  {
    if ch != '\n' {
      assert (la + lb)[0] == la[0] && (la + lb)[1..] == la[1..] + lb;
    }
  }

  /** The step of `LinesAtNewline`: one more character in front of the first
      text keeps the law. */
  lemma LinesAtNewlineStep(ch: char, a: string, b: string)
    requires Lines(a + "\n" + b) == Lines(a) + Lines(b)
    ensures Lines([ch] + a + "\n" + b) == Lines([ch] + a) + Lines(b)
  {
    var t := a + "\n" + b;
    assert [ch] + a + "\n" + b == [ch] + t;
    LinesCons(ch, t);
    LinesCons(ch, a);
    ConsLinesAppend(ch, Lines(a), Lines(b));
  }

  /** Two texts joined by a newline split into the lines of the first
      followed by the lines of the second. */
  lemma {:induction false} LinesAtNewline(a: string, b: string)
    ensures Lines(a + "\n" + b) == Lines(a) + Lines(b)
  {
    if a == [] {
      assert a + "\n" + b == ['\n'] + b;
      LinesCons('\n', b);
    } else {
      LinesAtNewline(a[1..], b);
      LinesAtNewlineStep(a[0], a[1..], b);
      assert [a[0]] + a[1..] == a;
    }
  }

  /** A newline-free text is its own single line. */
  lemma SingleLine(s: string)
    requires '\n' !in s
    ensures Lines(s) == [s]
  {
    LinesOfPrefix(s, "");
    assert s + "" == s;
  }

  /** A fixed newline-free prefix before a value adds no line. */
  lemma LinesOfLabelled(tag: string, v: string)
    requires '\n' !in tag
    ensures |Lines(tag + v)| == Newlines(v) + 1
  {
    OneLine(tag);
    LinesAppend(tag, v);
    LinesShape(v);
  }

  /** The URL line is one line plus one per newline in the username. */
  lemma UrlLineCount(user: string)
    ensures |Lines("URL:" + LinkedInProfilePrefix + user)| == Newlines(user) + 1
  {
    var prefix := "URL:" + LinkedInProfilePrefix;
    assert '\n' !in prefix;
    LinesOfLabelled(prefix, user);
  }

  /** Eight texts with a newline between each two split into the lines of
      each in turn. */
  lemma LinesOfEightTexts(a: string, b: string, c: string, d: string,
                          e: string, f: string, g: string, h: string)
    ensures Lines(a + "\n" + b + "\n" + c + "\n" + d + "\n" + e + "\n" + f + "\n" + g + "\n" + h)
      == Lines(a) + Lines(b) + Lines(c) + Lines(d) + Lines(e) + Lines(f) + Lines(g) + Lines(h)
  {
    var nl := "\n";
    LinesAtNewline(a, b);
    LinesAtNewline(a + nl + b, c);
    LinesAtNewline(a + nl + b + nl + c, d);
    LinesAtNewline(a + nl + b + nl + c + nl + d, e);
    LinesAtNewline(a + nl + b + nl + c + nl + d + nl + e, f);
    LinesAtNewline(a + nl + b + nl + c + nl + d + nl + e + nl + f, g);
    LinesAtNewline(a + nl + b + nl + c + nl + d + nl + e + nl + f + nl + g, h);
  }

  /** Whatever the values, the card's first two lines are BEGIN and VERSION
      and its last line is END; only values holding newlines can add lines. */
  lemma VCardFraming(c: Contact)
    ensures var ls := Lines(VCard(c));
      && |ls| >= 8
      && ls[0] == "BEGIN:VCARD" && ls[1] == "VERSION:3.0"
      && ls[|ls| - 1] == "END:VCARD"
  {
    var l := CardLines(c);
    VCardSpelledOut(c);
    LinesOfEightTexts(l[0], l[1], l[2], l[3], l[4], l[5], l[6], l[7]);
    FixedLines();
    Framed(Lines(l[0]), Lines(l[1]), Lines(l[2]), Lines(l[3]), Lines(l[4]), Lines(l[5]), Lines(l[6]), Lines(l[7]));
  }

  /** Ends of eight non-empty runs of lines laid end to end. */
  lemma Framed(a: seq<string>, b: seq<string>, c: seq<string>, d: seq<string>,
               e: seq<string>, f: seq<string>, g: seq<string>, h: seq<string>)
    requires |a| == 1 && |b| == 1 && |c| >= 1 && |d| >= 1 && |e| >= 1 && |f| >= 1 && |g| >= 1 && |h| == 1
    ensures var ls := a + b + c + d + e + f + g + h;
      |ls| >= 8 && ls[0] == a[0] && ls[1] == b[0] && ls[|ls| - 1] == h[0]
  {
  }

  /** The fixed lines of the card are single lines. */
  lemma FixedLines()
    ensures Lines("BEGIN:VCARD") == ["BEGIN:VCARD"]
    ensures Lines("VERSION:3.0") == ["VERSION:3.0"]
    ensures Lines("END:VCARD") == ["END:VCARD"]
  {
    FixedLine("BEGIN:VCARD");
    FixedLine("VERSION:3.0");
    FixedLine("END:VCARD");
  }

  /** One fixed line, checked on its own so the three literals do not meet. */
  lemma FixedLine(s: string)
    requires s in {"BEGIN:VCARD", "VERSION:3.0", "END:VCARD"}
    ensures Lines(s) == [s]
  {
    if s == "BEGIN:VCARD" {
      SingleLine("BEGIN:VCARD");
    } else if s == "VERSION:3.0" {
      SingleLine("VERSION:3.0");
    } else {
      SingleLine("END:VCARD");
    }
  }

  /** The N line has one more line per newline in the name. */
  lemma NameLineCount(name: string)
    ensures |Lines("N:" + name + ";;;")| == Newlines(name) + 1
  {
    LinesOfLabelled("N:", name);
    OneLine(";;;");
    LinesAppend("N:" + name, ";;;");
  }

  /** The labelled value lines have one more line per newline in the value. */
  lemma ValueLineCounts(name: string, tel: string, email: string)
    ensures |Lines("FN:" + name)| == Newlines(name) + 1
    ensures |Lines("TEL:" + tel)| == Newlines(tel) + 1
    ensures |Lines("EMAIL:" + email)| == Newlines(email) + 1
  {
    LinesOfLabelled("FN:", name);
    LinesOfLabelled("TEL:", tel);
    LinesOfLabelled("EMAIL:", email);
  }

  /** The card always has 8 lines plus one for every newline inside a value
      (the name counts twice). */
  lemma VCardLineCount(c: Contact)
    ensures |Lines(VCard(c))| == 8 + 2 * Newlines(Text(c.fullName)) + Newlines(Text(c.mobileNumber))
                                   + Newlines(Text(c.email)) + Newlines(Text(c.linkedIn))
  {
    var l := CardLines(c);
    VCardSpelledOut(c);
    LinesOfEightTexts(l[0], l[1], l[2], l[3], l[4], l[5], l[6], l[7]);
    FixedLines();
    NameLineCount(Text(c.fullName));
    ValueLineCounts(Text(c.fullName), Text(c.mobileNumber), Text(c.email));
    UrlLineCount(Text(c.linkedIn));
  }

  /** A card built only from newline-free values has exactly eight lines, and
      one with a newline in any value has more. */
  lemma VCardHasEightLinesIff(c: Contact)
    ensures |Lines(VCard(c))| == 8 <==>
      '\n' !in Text(c.fullName) && '\n' !in Text(c.mobileNumber) &&
      '\n' !in Text(c.email) && '\n' !in Text(c.linkedIn)
  {
    VCardLineCount(c);
  }

  /** The title and the three display-only handles never reach the card:
      two records that differ only in those fields have the same card. */
  lemma VCardIgnoresDisplayOnlyFields(c: Contact, title: Option<string>, facebook: Option<string>,
                                      instagram: Option<string>, x: Option<string>)
    ensures VCard(c.(title := title, facebook := facebook, instagram := instagram, x := x)) == VCard(c)
  {
  }

  /** An absent field and an empty one serialise alike. */
  lemma VCardAbsentIsEmpty(c: Contact, f: Field)
    ensures VCard(c.WithValue(f, None)) == VCard(c.WithValue(f, Some("")))
  {
  }

  /** The lines of a card whose serialised values are all empty. */
  lemma EmptyCardLines(c: Contact)
    requires Text(c.fullName) == "" && Text(c.mobileNumber) == ""
    requires Text(c.email) == "" && Text(c.linkedIn) == ""
    ensures CardLines(c) ==
      ["BEGIN:VCARD", "VERSION:3.0", "N:;;;", "FN:", "TEL:", "EMAIL:",
       "URL:https://linkedin.com/in/", "END:VCARD"]
  {
    LabelledEmpty("N:", ";;;");
    LabelledEmpty("FN:", "");
    LabelledEmpty("TEL:", "");
    LabelledEmpty("EMAIL:", "");
    LabelledEmpty("URL:" + LinkedInProfilePrefix, "");
    assert "URL:" + LinkedInProfilePrefix == "URL:https://linkedin.com/in/";
    assert "N:" + ";;;" == "N:;;;";
  }

  /** An empty value between a tag and a suffix leaves the tag and suffix. */
  lemma LabelledEmpty(tag: string, suffix: string)
    ensures tag + "" + suffix == tag + suffix
    ensures tag + "" == tag
  {
  }

  /** A record with every serialised value empty still yields the full skeleton. */
  lemma VCardOfEmptyRecord(c: Contact)
    requires Text(c.fullName) == "" && Text(c.mobileNumber) == ""
    requires Text(c.email) == "" && Text(c.linkedIn) == ""
    ensures Lines(VCard(c)) ==
      ["BEGIN:VCARD", "VERSION:3.0", "N:;;;", "FN:", "TEL:", "EMAIL:",
       "URL:https://linkedin.com/in/", "END:VCARD"]
  {
    VCardLines(c);
    EmptyCardLines(c);
  }

  /** The lines of the card of a sample record. */
  lemma SampleCardLines(c: Contact)
    requires Text(c.fullName) == "Atom Byte" && Text(c.mobileNumber) == "+263771234567"
    requires Text(c.email) == "a@b.com" && Text(c.linkedIn) == "limsync"
    ensures CardLines(c) ==
      ["BEGIN:VCARD", "VERSION:3.0", "N:Atom Byte;;;", "FN:Atom Byte",
       "TEL:+263771234567", "EMAIL:a@b.com", "URL:https://linkedin.com/in/limsync", "END:VCARD"]
  {
    SampleValueLines();
  }

  /** The sample's value lines, spelled out. */
  lemma SampleValueLines()
    ensures "N:" + "Atom Byte" + ";;;" == "N:Atom Byte;;;"
    ensures "FN:" + "Atom Byte" == "FN:Atom Byte"
    ensures "TEL:" + "+263771234567" == "TEL:+263771234567"
    ensures "EMAIL:" + "a@b.com" == "EMAIL:a@b.com"
    ensures "URL:" + LinkedInProfilePrefix + "limsync" == "URL:https://linkedin.com/in/limsync"
  {
  }

  /** The card of a sample record, line by line. */
  lemma VCardSample()
    ensures Lines(VCard(Contact(None, Some("Atom Byte"), Some("a@b.com"), Some("+263771234567"),
                                Some("limsync"), None, None, None))) ==
      ["BEGIN:VCARD", "VERSION:3.0", "N:Atom Byte;;;", "FN:Atom Byte",
       "TEL:+263771234567", "EMAIL:a@b.com", "URL:https://linkedin.com/in/limsync", "END:VCARD"]
  {
    var c := Contact(None, Some("Atom Byte"), Some("a@b.com"), Some("+263771234567"),
                     Some("limsync"), None, None, None);
    VCardLines(c);
    SampleCardLines(c);
  }
}
