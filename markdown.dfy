/**
 * The Markdown export of the vault (`exportAsMarkdown`): a document header with the
 * export date and the number of cards, then one section per card in display order.
 * The text is built the way the pages build it; `DocumentLines` gives the same text
 * as a list of lines, and `ParseDocument` reads such a list back, which states what
 * the export contains.
 */
module Markdown {

  import opened Options
  import opened JsString
  import opened Cards
  import opened VaultOrder

  const MeaningPrefix := "*Auto explanation:* "
  const NotePrefix := "**My understanding:** "
  const ContextPrefix := "*Context:* "
  const SourcePrefix := "[Source]("
  const SourceSuffix := ")"
  const HeadingPrefix := "## "
  const DatePrefix := "**Date:** "
  const Rule := "---"

  /** The two lines `push`ed for an optional field: `line` and a blank line, when `value` is non-empty. */
  function Pushed(value: string, line: string): seq<string> {
    if value != "" then [line, ""] else []
  }

  /**
   * The lines of one card's section: heading, date, the meaning, note, context and
   * source lines of the fields that are non-empty, each followed by a blank line, then a rule.
   */
  function SectionLines(host: Host, c: Card): seq<string> {
    [HeadingPrefix + Title(c), "", DatePrefix + FormatDate(host, c.dateAdded), ""]
    + Pushed(c.meaning, MeaningPrefix + c.meaning)
    + Pushed(c.mnemonic, NotePrefix + c.mnemonic)
    + Pushed(c.context, ContextPrefix + c.context)
    + Pushed(c.sourceUrl, SourcePrefix + c.sourceUrl + SourceSuffix)
    + [Rule, ""]
  }

  /** `lines.join('\n')` for one card. */
  function SectionText(host: Host, c: Card): string {
    JoinLines(SectionLines(host, c))
  }

  /** `words.map(...)`: the section texts in display order. */
  function SectionTexts(host: Host, order: seq<Card>): seq<string> {
    if order == [] then [] else [SectionText(host, order[0])] + SectionTexts(host, order[1..])
  }

  /** The document header; `exportDate` is the formatted date of the export. */
  function Header(exportDate: string, total: nat): string {
    "# Word Vault" + "\n" + "\n" + "*Exported on " + exportDate + "*" + "\n" + "\n"
    + "Total words: " + Decimal(total) + "\n" + "\n" + Rule + "\n" + "\n"
  }

  /** `header + markdown` for the cards in display order `order`, exported at time `now`. */
  function DocumentText(host: Host, order: seq<Card>, now: string): string {
    Header(FormatDate(host, now), |order|) + JoinLines(SectionTexts(host, order))
  }

  /** The download name `word-vault-<first ten characters of the ISO timestamp>.md`. */
  function FileName(now: string): (r: string)
    ensures HasPrefix(r, "word-vault-") && HasSuffix(r, ".md")
    ensures r == "word-vault-" + Slice(now, 10) + ".md"
    ensures |now| >= 10 ==> r[|"word-vault-"|..|r| - |".md"|] == now[..10]
  {
    "word-vault-" + Slice(now, 10) + ".md"
  }

  // ---------------------------------------------------------------------------
  // The document as lines

  function HeaderLines(exportDate: string, total: nat): seq<string> {
    ["# Word Vault", "", "*Exported on " + exportDate + "*", "", "Total words: " + Decimal(total), "", Rule, ""]
  }

  function AllSectionLines(host: Host, order: seq<Card>): seq<string> {
    if order == [] then [] else SectionLines(host, order[0]) + AllSectionLines(host, order[1..])
  }

  function DocumentLines(host: Host, order: seq<Card>, now: string): seq<string> {
    HeaderLines(FormatDate(host, now), |order|) + AllSectionLines(host, order)
  }

  lemma {:induction false} SectionsJoin(host: Host, order: seq<Card>)
    requires order != []
    ensures AllSectionLines(host, order) != []
    ensures JoinLines(SectionTexts(host, order)) == JoinLines(AllSectionLines(host, order))
  {
    if |order| == 1 {
      assert order[1..] == [];
      assert SectionTexts(host, order) == [SectionText(host, order[0])];
      assert AllSectionLines(host, order) == SectionLines(host, order[0]) + [];
      assert SectionLines(host, order[0]) + [] == SectionLines(host, order[0]);
    } else {
      SectionsJoin(host, order[1..]);
      JoinAppend(SectionLines(host, order[0]), AllSectionLines(host, order[1..]));
      assert SectionTexts(host, order)[1..] == SectionTexts(host, order[1..]);
    }
  }

  lemma JoinCons(a: string, rest: seq<string>)
    requires rest != []
    ensures JoinLines([a] + rest) == a + "\n" + JoinLines(rest)
  {
    assert ([a] + rest)[1..] == rest;
  }

  lemma HeaderJoin(exportDate: string, total: nat)
    ensures Header(exportDate, total) == JoinLines(HeaderLines(exportDate, total)) + "\n"
  {
    var l2 := "*Exported on " + exportDate + "*";
    var l4 := "Total words: " + Decimal(total);
    var t6 := Rule + "\n";
    var t5 := "\n" + t6;
    var t4 := l4 + "\n" + t5;
    var t3 := "\n" + t4;
    var t2 := l2 + "\n" + t3;
    var t1 := "\n" + t2;
    var t0 := "# Word Vault" + "\n" + t1;
    JoinCons(Rule, [""]);
    assert JoinLines([Rule, ""]) == t6;
    JoinCons("", [Rule, ""]);
    assert "" + "\n" + t6 == t5;
    JoinCons(l4, ["", Rule, ""]);
    JoinCons("", [l4, "", Rule, ""]);
    assert "" + "\n" + t4 == t3;
    JoinCons(l2, ["", l4, "", Rule, ""]);
    JoinCons("", [l2, "", l4, "", Rule, ""]);
    assert "" + "\n" + t2 == t1;
    JoinCons("# Word Vault", ["", l2, "", l4, "", Rule, ""]);
    assert HeaderLines(exportDate, total) == ["# Word Vault"] + ["", l2, "", l4, "", Rule, ""];
    assert JoinLines(HeaderLines(exportDate, total)) == t0;
    HeaderText(exportDate, total, l2, l4);
  }

  lemma HeaderText(exportDate: string, total: nat, l2: string, l4: string)
    requires l2 == "*Exported on " + exportDate + "*" && l4 == "Total words: " + Decimal(total)
    ensures Header(exportDate, total)
            == "# Word Vault" + "\n" + ("\n" + (l2 + "\n" + ("\n" + (l4 + "\n" + ("\n" + (Rule + "\n")))))) + "\n"
  {
  }

  /** The exported text is the document's lines joined by '\n'. */
  lemma DocumentIsJoinedLines(host: Host, order: seq<Card>, now: string)
    requires order != []
    ensures DocumentText(host, order, now) == JoinLines(DocumentLines(host, order, now))
  {
    SectionsJoin(host, order);
    HeaderJoin(FormatDate(host, now), |order|);
    JoinAppend(HeaderLines(FormatDate(host, now), |order|), AllSectionLines(host, order));
  }

  // ---------------------------------------------------------------------------
  // Reading a document back

  /** What a section says about its card. */
  datatype SectionView = SectionView(
    title: string, date: string, meaning: string, note: string, context: string, source: string)

  /** What a whole document says: the export date, the header's count and the sections in order. */
  datatype DocumentView = DocumentView(exportDate: string, total: nat, sections: seq<SectionView>)

  /** The section a card should produce: its title, its formatted date and its four optional fields. */
  function ViewOfCard(host: Host, c: Card): SectionView {
    SectionView(Title(c), FormatDate(host, c.dateAdded), c.meaning, c.mnemonic, c.context, c.sourceUrl)
  }

  function ViewsOfCards(host: Host, order: seq<Card>): (r: seq<SectionView>)
    ensures |r| == |order|
    ensures forall k :: 0 <= k < |order| ==> r[k] == ViewOfCard(host, order[k])
  {
    if order == [] then [] else [ViewOfCard(host, order[0])] + ViewsOfCards(host, order[1..])
  }

  /** An optional `prefix value suffix` line and the blank line after it; "" and no lines consumed when absent. */
  function ReadField(ls: seq<string>, prefix: string, suffix: string): (r: (string, seq<string>))
    ensures |r.1| <= |ls|
  {
    if |ls| >= 2 && ls[1] == "" && |ls[0]| >= |prefix| + |suffix|
       && HasPrefix(ls[0], prefix) && HasSuffix(ls[0], suffix)
    then (ls[0][|prefix|..|ls[0]| - |suffix|], ls[2..])
    else ("", ls)
  }

  /** Reads one section from the front of `ls` and returns it with the lines after it. */
  function ParseSection(ls: seq<string>): (r: Option<(SectionView, seq<string>)>)
    ensures r.Some? ==> |r.value.1| < |ls|
  {
    if |ls| >= 4 && HasPrefix(ls[0], HeadingPrefix) && ls[1] == "" && HasPrefix(ls[2], DatePrefix) && ls[3] == ""
    then
      var (meaning, r1) := ReadField(ls[4..], MeaningPrefix, "");
      var (note, r2) := ReadField(r1, NotePrefix, "");
      var (context, r3) := ReadField(r2, ContextPrefix, "");
      var (source, r4) := ReadField(r3, SourcePrefix, SourceSuffix);
      if |r4| >= 2 && r4[0] == Rule && r4[1] == "" then
        Some((SectionView(ls[0][|HeadingPrefix|..], ls[2][|DatePrefix|..], meaning, note, context, source), r4[2..]))
      else None
    else None
  }

  function ParseSections(ls: seq<string>): Option<seq<SectionView>>
    decreases |ls|
  {
    if ls == [] then Some([])
    else match ParseSection(ls)
      case None => None
      case Some((v, rest)) =>
        match ParseSections(rest)
        case None => None
        case Some(vs) => Some([v] + vs)
  }

  function ParseDocument(ls: seq<string>): Option<DocumentView> {
    if |ls| >= 8 && ls[0] == "# Word Vault" && ls[1] == ""
       && |ls[2]| >= 14 && HasPrefix(ls[2], "*Exported on ") && HasSuffix(ls[2], "*") && ls[3] == ""
       && HasPrefix(ls[4], "Total words: ") && ls[5] == "" && ls[6] == Rule && ls[7] == ""
    then
      match (ParseDecimal(ls[4][13..]), ParseSections(ls[8..]))
      case (Some(total), Some(sections)) => Some(DocumentView(ls[2][13..|ls[2]| - 1], total, sections))
      case _ => None
    else None
  }

  // ---------------------------------------------------------------------------
  // The round trip

  lemma PrefixSplit(p: string, v: string)
    ensures HasPrefix(p + v, p) && (p + v)[|p|..] == v
  {
    assert (p + v)[..|p|] == p;
  }

  lemma ReadPresent(p: string, v: string, q: string, rest: seq<string>)
    ensures ReadField([p + v + q, ""] + rest, p, q) == (v, rest)
  {
    var l := p + v + q;
    assert l[..|p|] == p;
    assert l[|l| - |q|..] == q;
    assert l[|p|..|l| - |q|] == v;
    assert ([l, ""] + rest)[2..] == rest;
  }

  /** The line `l` starts with neither `p` nor, when shorter than p, anything; so it is not read as `p`. */
  lemma ReadAbsent(ls: seq<string>, p: string, q: string)
    requires ls != [] && !HasPrefix(ls[0], p)
    ensures ReadField(ls, p, q) == ("", ls)
  {
  }

  lemma DiffersAt(l: string, p: string, k: nat)
    requires k < |p| && (k >= |l| || l[k] != p[k])
    ensures !HasPrefix(l, p)
  {
  }

  /** The rule line and every field line after the meaning are not meaning lines, and so on down. */
  lemma TailStarts(c: Card)
    ensures NoteAndAfter(c) != [] && !HasPrefix(NoteAndAfter(c)[0], MeaningPrefix)
    ensures ContextAndAfter(c) != [] && !HasPrefix(ContextAndAfter(c)[0], NotePrefix)
    ensures SourceAndAfter(c) != [] && !HasPrefix(SourceAndAfter(c)[0], ContextPrefix)
    ensures !HasPrefix(Rule, SourcePrefix)
  {
    var l := NoteAndAfter(c)[0];
    if c.mnemonic != "" || c.context != "" {
      DiffersAt(l, MeaningPrefix, 1);
    } else {
      DiffersAt(l, MeaningPrefix, 0);
    }
    var m := ContextAndAfter(c)[0];
    if c.context != "" {
      DiffersAt(m, NotePrefix, 1);
    } else {
      DiffersAt(m, NotePrefix, 0);
    }
    DiffersAt(SourceAndAfter(c)[0], ContextPrefix, 0);
    DiffersAt(Rule, SourcePrefix, 0);
  }

  function SourceAndAfter(c: Card): seq<string> {
    Pushed(c.sourceUrl, SourcePrefix + c.sourceUrl + SourceSuffix) + [Rule, ""]
  }

  function ContextAndAfter(c: Card): seq<string> {
    Pushed(c.context, ContextPrefix + c.context) + SourceAndAfter(c)
  }

  function NoteAndAfter(c: Card): seq<string> {
    Pushed(c.mnemonic, NotePrefix + c.mnemonic) + ContextAndAfter(c)
  }

  function MeaningAndAfter(c: Card): seq<string> {
    Pushed(c.meaning, MeaningPrefix + c.meaning) + NoteAndAfter(c)
  }

  lemma SectionShape(host: Host, c: Card)
    ensures SectionLines(host, c)
            == [HeadingPrefix + Title(c), "", DatePrefix + FormatDate(host, c.dateAdded), ""] + MeaningAndAfter(c)
  {
  }

  lemma ReadOne(prefix: string, value: string, suffix: string, after: seq<string>, rest: seq<string>)
    requires value == "" ==> after != [] && !HasPrefix(after[0], prefix)
    ensures ReadField(Pushed(value, prefix + value + suffix) + after + rest, prefix, suffix) == (value, after + rest)
  {
    if value != "" {
      ReadPresent(prefix, value, suffix, after + rest);
      assert Pushed(value, prefix + value + suffix) + after + rest == [prefix + value + suffix, ""] + (after + rest);
    } else {
      assert Pushed(value, prefix + value + suffix) + after + rest == after + rest;
      ReadAbsent(after + rest, prefix, suffix);
    }
  }

  /** A card's section reads back as that card's view, whatever lines follow it. */
  lemma {:induction false} ParseSectionOfCard(host: Host, c: Card, rest: seq<string>)
    ensures ParseSection(SectionLines(host, c) + rest) == Some((ViewOfCard(host, c), rest))
  {
    SectionShape(host, c);
    TailStarts(c);
    var head := [HeadingPrefix + Title(c), "", DatePrefix + FormatDate(host, c.dateAdded), ""];
    var ls := SectionLines(host, c) + rest;
    assert ls == head + MeaningAndAfter(c) + rest;
    assert ls[4..] == MeaningAndAfter(c) + rest;
    PrefixSplit(HeadingPrefix, Title(c));
    PrefixSplit(DatePrefix, FormatDate(host, c.dateAdded));
    assert ls[0] == HeadingPrefix + Title(c) && ls[2] == DatePrefix + FormatDate(host, c.dateAdded);
    assert MeaningPrefix + c.meaning + "" == MeaningPrefix + c.meaning;
    assert NotePrefix + c.mnemonic + "" == NotePrefix + c.mnemonic;
    assert ContextPrefix + c.context + "" == ContextPrefix + c.context;
    ReadOne(MeaningPrefix, c.meaning, "", NoteAndAfter(c), rest);
    ReadOne(NotePrefix, c.mnemonic, "", ContextAndAfter(c), rest);
    ReadOne(ContextPrefix, c.context, "", SourceAndAfter(c), rest);
    ReadOne(SourcePrefix, c.sourceUrl, SourceSuffix, [Rule, ""], rest);
    assert ([Rule, ""] + rest)[2..] == rest;
  }

  lemma {:induction false} ParseAllSections(host: Host, order: seq<Card>)
    ensures ParseSections(AllSectionLines(host, order)) == Some(ViewsOfCards(host, order))
  {
    if order != [] {
      ParseSectionOfCard(host, order[0], AllSectionLines(host, order[1..]));
      ParseAllSections(host, order[1..]);
    }
  }

  /** The header lines pass every test of `ParseDocument` and carry the date and the count. */
  lemma HeaderReads(d: string, n: nat, rest: seq<string>)
    ensures var ls := HeaderLines(d, n) + rest;
      && |ls| >= 8 && ls[0] == "# Word Vault" && ls[1] == ""
      && |ls[2]| >= 14 && HasPrefix(ls[2], "*Exported on ") && HasSuffix(ls[2], "*") && ls[3] == ""
      && HasPrefix(ls[4], "Total words: ") && ls[5] == "" && ls[6] == Rule && ls[7] == ""
      && ls[2][13..|ls[2]| - 1] == d && ParseDecimal(ls[4][13..]) == Some(n) && ls[8..] == rest
  {
    var l2 := "*Exported on " + d + "*";
    assert l2[..13] == "*Exported on ";
    assert l2[|l2| - 1..] == "*";
    assert l2[13..|l2| - 1] == d;
    PrefixSplit("Total words: ", Decimal(n));
    ParseDecimalOfDecimal(n);
  }

  /**
   * The export reads back completely: the header's export date and a "Total words" count
   * equal to the number of cards, then one section per card, in display order, each
   * holding exactly the card's non-empty optional fields.
   */
  lemma ParseDocumentLines(host: Host, order: seq<Card>, now: string)
    ensures ParseDocument(DocumentLines(host, order, now))
            == Some(DocumentView(FormatDate(host, now), |order|, ViewsOfCards(host, order)))
  {
    HeaderReads(FormatDate(host, now), |order|, AllSectionLines(host, order));
    ParseAllSections(host, order);
  }

  /** Every value the section of `c` prints, the formatted date included, stays on one line. */
  ghost predicate OnOneLine(host: Host, c: Card) {
    && '\n' !in c.word && '\n' !in c.meaning && '\n' !in c.mnemonic
    && '\n' !in c.context && '\n' !in c.sourceUrl && '\n' !in FormatDate(host, c.dateAdded)
  }

  lemma NoNewlineAppend(a: seq<string>, b: seq<string>)
    requires NoNewline(a) && NoNewline(b)
    ensures NoNewline(a + b)
  {
    forall k | 0 <= k < |a + b| ensures '\n' !in (a + b)[k] {
      if k < |a| { assert (a + b)[k] == a[k]; } else { assert (a + b)[k] == b[k - |a|]; }
    }
  }

  lemma HeaderOnOneLine(d: string, n: nat)
    requires '\n' !in d
    ensures NoNewline(HeaderLines(d, n))
  {
    assert !IsDigit('\n');
  }

  lemma SectionOnOneLine(host: Host, c: Card)
    requires OnOneLine(host, c)
    ensures NoNewline(SectionLines(host, c))
  {
    var head := [HeadingPrefix + Title(c), "", DatePrefix + FormatDate(host, c.dateAdded), ""];
    var p1 := Pushed(c.meaning, MeaningPrefix + c.meaning);
    var p2 := Pushed(c.mnemonic, NotePrefix + c.mnemonic);
    var p3 := Pushed(c.context, ContextPrefix + c.context);
    var p4 := Pushed(c.sourceUrl, SourcePrefix + c.sourceUrl + SourceSuffix);
    assert NoNewline(head) by {
      assert '\n' !in HeadingPrefix + Title(c);
      assert '\n' !in DatePrefix + FormatDate(host, c.dateAdded);
    }
    PushedOnOneLine(c.meaning, MeaningPrefix + c.meaning);
    PushedOnOneLine(c.mnemonic, NotePrefix + c.mnemonic);
    PushedOnOneLine(c.context, ContextPrefix + c.context);
    PushedOnOneLine(c.sourceUrl, SourcePrefix + c.sourceUrl + SourceSuffix);
    NoNewlineAppend(head, p1);
    NoNewlineAppend(head + p1, p2);
    NoNewlineAppend(head + p1 + p2, p3);
    NoNewlineAppend(head + p1 + p2 + p3, p4);
    NoNewlineAppend(head + p1 + p2 + p3 + p4, [Rule, ""]);
  }

  lemma PushedOnOneLine(value: string, line: string)
    requires '\n' !in line
    ensures NoNewline(Pushed(value, line))
  {
  }

  lemma {:induction false} SectionsOnOneLine(host: Host, order: seq<Card>)
    requires forall k :: 0 <= k < |order| ==> OnOneLine(host, order[k])
    ensures NoNewline(AllSectionLines(host, order))
  {
    if order != [] {
      SectionOnOneLine(host, order[0]);
      SectionsOnOneLine(host, order[1..]);
      NoNewlineAppend(SectionLines(host, order[0]), AllSectionLines(host, order[1..]));
    }
  }

  /**
   * When no printed value contains a line break, splitting the exported text on '\n'
   * and reading it back gives the export date, the count and one section per card.
   */
  lemma ExportTextReadsBack(host: Host, order: seq<Card>, now: string)
    requires order != []
    requires '\n' !in FormatDate(host, now)
    requires forall k :: 0 <= k < |order| ==> OnOneLine(host, order[k])
    ensures ParseDocument(SplitLines(DocumentText(host, order, now)))
            == Some(DocumentView(FormatDate(host, now), |order|, ViewsOfCards(host, order)))
  {
    DocumentIsJoinedLines(host, order, now);
    SectionsOnOneLine(host, order);
    HeaderOnOneLine(FormatDate(host, now), |order|);
    NoNewlineAppend(HeaderLines(FormatDate(host, now), |order|), AllSectionLines(host, order));
    SplitJoin(DocumentLines(host, order, now));
    ParseDocumentLines(host, order, now);
  }

  /** The single-card export: heading, date, meaning, note and source lines, and no context line. */
  lemma EphemeralExample(host: Host)
    ensures var c := Card("ephemeral", "lasting a short time", "eph = short", "", "https://x.test", "2024-05-01");
      SectionLines(host, c)
      == [HeadingPrefix + "ephemeral", "", DatePrefix + host.localeDate("2024-05-01"), "",
          MeaningPrefix + "lasting a short time", "",
          NotePrefix + "eph = short", "",
          SourcePrefix + "https://x.test" + SourceSuffix, "",
          Rule, ""]
  {
  }

  /** How many of the four optional fields of `c` are non-empty. */
  function PresentFields(c: Card): nat {
    (if c.meaning != "" then 1 else 0) + (if c.mnemonic != "" then 1 else 0)
    + (if c.context != "" then 1 else 0) + (if c.sourceUrl != "" then 1 else 0)
  }

  /**
   * A section opens with the heading of the card's title, holds two lines per non-empty
   * optional field on top of its six fixed lines, and closes with the rule and a blank line.
   */
  lemma SectionLayout(host: Host, c: Card)
    ensures |SectionLines(host, c)| == 6 + 2 * PresentFields(c)
    ensures SectionLines(host, c)[0] == HeadingPrefix + Title(c)
    ensures SectionLines(host, c)[|SectionLines(host, c)| - 2..] == [Rule, ""]
  {
    SectionShape(host, c);
    var ls := SectionLines(host, c);
    assert ls == (ls[..|ls| - 2]) + [Rule, ""];
  }

  /**
   * The export of the stored list reads back as a header counting every stored card and
   * one section per card, in an order that is newest first and holds each stored card
   * exactly as often as storage does.
   */
  lemma ExportOfStored(host: Host, stored: seq<Card>, now: string)
    ensures var order := NewestFirst(host, stored);
      && ParseDocument(DocumentLines(host, order, now))
         == Some(DocumentView(FormatDate(host, now), |stored|, ViewsOfCards(host, order)))
      && IsNewestFirst(host, order) && multiset(order) == multiset(stored)
  {
    NewestFirstSortsAndPermutes(host, stored);
    ParseDocumentLines(host, NewestFirst(host, stored), now);
  }

  /** The file `exportAsMarkdown` offers for download. */
  datatype Download = Download(fileName: string, text: string)

  const NoWordsAlert := "No words to export"

  /** What an export click ends in: an alert, or a file offered for download. */
  datatype ExportOutcome = Alert(message: string) | Downloaded(file: Download)

  /**
   * `exportAsMarkdown` on the list read from storage: the "No words to export" alert when
   * it is empty, otherwise the document of the cards sorted newest first in place.
   */
  method Export(host: Host, stored: seq<Card>, now: string) returns (outcome: ExportOutcome)
    ensures stored == [] ==> outcome == Alert(NoWordsAlert)
    ensures stored != [] ==>
      outcome == Downloaded(Download(FileName(now), DocumentText(host, NewestFirst(host, stored), now)))
  {
    if |stored| == 0 {
      return Alert(NoWordsAlert);
    }
    var words := new Card[|stored|](i requires 0 <= i < |stored| => stored[i]);
    assert words[..] == stored;
    SortNewestFirst(host, words);
    outcome := Downloaded(Download(FileName(now), DocumentText(host, words[..], now)));
  }
}
