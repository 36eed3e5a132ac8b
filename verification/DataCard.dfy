/**
  What the result card derives from one extraction record: the confidence
  tier, the direct-number label, the email and phone rows, and which rows
  show a value, a copy button or the primary badge. The card reads the
  record as it arrives from the service, so every key may be missing.
 */
module DataCard {

  import opened Wrappers
  import opened Types
  import JsStrings

  /** The three colours of the confidence dot. */
  datatype Tier = High | Medium | Low

  function TierRank(t: Tier): nat
  {
    match t
    case Low => 0
    case Medium => 1
    case High => 2
  }

  /** A score of at least 0.9 is high, at least 0.7 medium, anything else
      low; a missing or `null` score compares false both times and is low. */
  function ConfidenceTier(score: Field<real>): (t: Tier)
    ensures t == High <==> score.Present? && score.value >= 0.9
    ensures t == Medium <==> score.Present? && 0.7 <= score.value < 0.9
    ensures t == Low <==> !score.Present? || score.value < 0.7
  {
    if score.Present? && score.value >= 0.9 then High
    else if score.Present? && score.value >= 0.7 then Medium
    else Low
  }

  /** A higher score never gets a lower tier. */
  lemma ConfidenceTierMonotone(x: real, y: real)
    requires x <= y
    ensures TierRank(ConfidenceTier(Present(x))) <= TierRank(ConfidenceTier(Present(y)))
  {
  }

  /** One labelled row of the card, before it is drawn. */
  datatype Row = Row(caption: string, value: Option<string>, copyable: bool, primary: bool)

  /** What a row shows: its label, its text, and whether the copy button and
      the "Primary Contact" badge appear. */
  datatype RowView = RowView(caption: string, text: string, copyButton: bool, primaryBadge: bool)

  const NotFound := "Not found"

  /** A falsy value shows "Not found" and never a copy button or a badge; a
      truthy value shows itself, with the button and badge the row asks for. */
  function ShowRow(row: Row): (v: RowView)
    ensures v.caption == row.caption
    ensures Truthy(row.value) ==> v.text == row.value.value
    ensures !Truthy(row.value) ==> v.text == NotFound
    ensures v.copyButton <==> row.copyable && Truthy(row.value)
    ensures v.primaryBadge <==> row.primary && Truthy(row.value)
  {
    if Truthy(row.value) then RowView(row.caption, row.value.value, row.copyable, row.primary)
    else RowView(row.caption, NotFound, false, false)
  }

  function ShowRows(rows: seq<Row>): (vs: seq<RowView>)
    ensures |vs| == |rows|
    ensures forall i :: 0 <= i < |rows| ==> vs[i] == ShowRow(rows[i])
  {
    seq(|rows|, i requires 0 <= i < |rows| => ShowRow(rows[i]))
  }

  /** The direct line: the first phone number, if there is one. */
  function PrimaryPhone(rec: Record): (p: Option<string>)
    ensures p.Some? <==> rec.phoneNumbers.Present? && |rec.phoneNumbers.value| > 0
    ensures p.Some? ==> p.value == rec.phoneNumbers.value[0]
  {
    if rec.phoneNumbers.Present? && |rec.phoneNumbers.value| > 0
    then Some(rec.phoneNumbers.value[0]) else None
  }

  function AlternativeLabel(k: nat): string
  {
    "Alternative Number " + JsStrings.DecimalString(k)
  }

  /** The numbers after the first, as rows "Alternative Number 1", "2", ...;
      none when there are fewer than two numbers (the card then says that no
      secondary numbers were found). */
  function AlternativeRows(rec: Record): (rows: seq<Row>)
    ensures var ps := rec.phoneNumbers;
      ps.Present? && |ps.value| > 1 ==>
        && |rows| == |ps.value| - 1
        && forall i :: 0 <= i < |rows| ==>
             rows[i] == Row(AlternativeLabel(i + 1), Some(ps.value[i + 1]), true, false)
    ensures !(rec.phoneNumbers.Present? && |rec.phoneNumbers.value| > 1) ==> rows == []
  {
    if rec.phoneNumbers.Present? && |rec.phoneNumbers.value| > 1 then
      var rest := rec.phoneNumbers.value[1..];
      seq(|rest|, i requires 0 <= i < |rest| => Row(AlternativeLabel(i + 1), Some(rest[i]), true, false))
    else []
  }

  function Values(rows: seq<Row>): seq<Option<string>>
  {
    seq(|rows|, i requires 0 <= i < |rows| => rows[i].value)
  }

  function Somes(xs: seq<string>): seq<Option<string>>
  {
    seq(|xs|, i requires 0 <= i < |xs| => Some(xs[i]))
  }

  /** The primary phone followed by the alternatives is the phone list
      itself, in order, nothing repeated and nothing dropped. */
  lemma PhonesPartition(rec: Record)
    requires rec.phoneNumbers.Present?
    ensures var ps := rec.phoneNumbers.value;
      (if PrimaryPhone(rec).Some? then [PrimaryPhone(rec)] else []) + Values(AlternativeRows(rec))
        == Somes(ps)
  {
    var ps := rec.phoneNumbers.value;
    var head := if PrimaryPhone(rec).Some? then [PrimaryPhone(rec)] else [];
    var alts := Values(AlternativeRows(rec));
    if |ps| > 1 {
      assert forall i :: 0 <= i < |alts| ==> alts[i] == Some(ps[i + 1]);
    }
    assert |head + alts| == |Somes(ps)|;
    forall i | 0 <= i < |ps|
      ensures (head + alts)[i] == Somes(ps)[i]
    {
      if i > 0 {
        assert (head + alts)[i] == alts[i - 1];
      }
    }
  }

  /** Different alternatives carry different labels. */
  lemma AlternativeLabelsDistinct(rec: Record, i: nat, j: nat)
    requires i < |AlternativeRows(rec)| && j < |AlternativeRows(rec)| && i != j
    ensures AlternativeRows(rec)[i].caption != AlternativeRows(rec)[j].caption
  {
    JsStrings.NumberedLabelsDistinct("Alternative Number ", i + 1, j + 1);
  }

  function EmailLabel(count: nat, k: nat): string
  {
    if count > 1 then "Email Address " + JsStrings.DecimalString(k) else "Email Address"
  }

  /** One copyable row per email, in order, numbered from 1 only when there
      are several, with the first alone flagged primary; a missing or empty
      list gives a single empty "Email Address" row. */
  function EmailRows(rec: Record): (rows: seq<Row>)
    ensures var es := rec.emails;
      es.Present? && |es.value| > 0 ==>
        && |rows| == |es.value|
        && forall i :: 0 <= i < |rows| ==>
             && rows[i].value == Some(es.value[i])
             && rows[i].copyable
             && (rows[i].primary <==> i == 0)
             && rows[i].caption == (if |es.value| > 1 then "Email Address " + JsStrings.DecimalString(i + 1)
                                  else "Email Address")
    ensures !(rec.emails.Present? && |rec.emails.value| > 0) ==>
      rows == [Row("Email Address", None, false, false)]
  {
    if rec.emails.Present? && |rec.emails.value| > 0 then
      var es := rec.emails.value;
      seq(|es|, i requires 0 <= i < |es| => Row(EmailLabel(|es|, i + 1), Some(es[i]), true, i == 0))
    else [Row("Email Address", None, false, false)]
  }

  /** Email rows have pairwise different labels. */
  lemma EmailLabelsDistinct(rec: Record, i: nat, j: nat)
    requires i < |EmailRows(rec)| && j < |EmailRows(rec)| && i != j
    ensures EmailRows(rec)[i].caption != EmailRows(rec)[j].caption
  {
    var rows := EmailRows(rec);
    assert rec.emails.Present? && |rec.emails.value| > 1;
    assert rows[i].caption == "Email Address " + JsStrings.DecimalString(i + 1);
    assert rows[j].caption == "Email Address " + JsStrings.DecimalString(j + 1);
    JsStrings.NumberedLabelsDistinct("Email Address ", i + 1, j + 1);
  }

  /** The first space-separated word of the full name, or "Person" when the
      name is missing, `null`, empty or starts with a space. */
  function FirstName(fullName: Field<string>): (name: string)
    ensures name != ""
    ensures var n := fullName;
      n.Present? && n.value != "" && n.value[0] != ' ' ==>
        && ' ' !in name
        && |name| <= |n.value| && name == n.value[..|name|]
        && (|name| == |n.value| || n.value[|name|] == ' ')
    ensures !(fullName.Present? && fullName.value != "" && fullName.value[0] != ' ') ==>
      name == "Person"
  {
    var word := if fullName.Present? then JsStrings.Split(fullName.value, ' ')[0] else "";
    FirstPieceIsPrefix(if fullName.Present? then fullName.value else "");
    if word != "" then word else "Person"
  }

  /** The first piece of a split is the text before the first separator. */
  lemma FirstPieceIsPrefix(s: string)
    ensures JsStrings.Split(s, ' ')[0] == JsStrings.BeforeFirst(s, ' ')
  {
  }

  function DirectNumberLabel(rec: Record): string
  {
    FirstName(rec.fullName) + "'s Direct Number"
  }

  /** The first section: name, direct number, role, organisation, place. Only
      the name and the direct number are copyable; only the direct number is
      primary. */
  function IdentityRows(rec: Record): (rows: seq<Row>)
    ensures |rows| == 5
    ensures rows[0].caption == "Full Name" && rows[0].value == ValueOf(rec.fullName)
    ensures rows[1].caption == FirstName(rec.fullName) + "'s Direct Number"
    ensures rows[1].value == PrimaryPhone(rec) && rows[1].primary
    ensures rows[2].caption == "Current Role" && rows[2].value == ValueOf(rec.jobTitle)
    ensures rows[3].caption == "Organization" && rows[3].value == ValueOf(rec.company)
    ensures rows[4].caption == "Geography" && rows[4].value == ValueOf(rec.location)
    ensures forall i :: 0 <= i < 5 && i != 1 ==> !rows[i].primary
    ensures forall i :: 0 <= i < 5 ==> (rows[i].copyable <==> i < 2)
  {
    [ Row("Full Name", ValueOf(rec.fullName), true, false),
      Row(DirectNumberLabel(rec), PrimaryPhone(rec), true, true),
      Row("Current Role", ValueOf(rec.jobTitle), false, false),
      Row("Organization", ValueOf(rec.company), false, false),
      Row("Geography", ValueOf(rec.location), false, false) ]
  }

  /** The whole card as drawn. */
  datatype Card = Card(
    tier: Tier,
    profileLink: Option<string>,
    identity: seq<RowView>,
    emails: seq<RowView>,
    alternatives: seq<RowView>,
    noSecondaryNumbers: bool,
    summary: Option<string>)

  /** The card: the three sections show the identity, email and alternative
      rows; the profile link and the summary appear only when truthy; the
      "no secondary numbers" note appears exactly when the record does not
      hold at least two phone numbers, which is when there are no
      alternatives. */
  function Render(rec: Record): (c: Card)
    ensures c.tier == ConfidenceTier(rec.confidenceScore)
    ensures c.profileLink.Some? <==> FieldTruthy(rec.linkedinUrl)
    ensures c.profileLink.Some? ==> c.profileLink.value == rec.linkedinUrl.value
    ensures c.summary.Some? <==> FieldTruthy(rec.summary)
    ensures c.summary.Some? ==> c.summary.value == rec.summary.value
    ensures c.identity == ShowRows(IdentityRows(rec))
    ensures c.emails == ShowRows(EmailRows(rec))
    ensures c.alternatives == ShowRows(AlternativeRows(rec))
    ensures c.noSecondaryNumbers <==> !(rec.phoneNumbers.Present? && |rec.phoneNumbers.value| > 1)
    ensures c.noSecondaryNumbers <==> c.alternatives == []
    ensures |c.identity| == 5 && |c.emails| >= 1
  {
    var alternatives := ShowRows(AlternativeRows(rec));
    Card(ConfidenceTier(rec.confidenceScore),
         if FieldTruthy(rec.linkedinUrl) then Some(rec.linkedinUrl.value) else None,
         ShowRows(IdentityRows(rec)),
         ShowRows(EmailRows(rec)),
         alternatives,
         !(rec.phoneNumbers.Present? && |rec.phoneNumbers.value| > 1),
         if FieldTruthy(rec.summary) then Some(rec.summary.value) else None)
  }

  /** Empty email and phone lists are shown as absent, not as errors: the
      direct number and the single email row read "Not found", no row shows
      a primary badge, and the card notes that there are no secondary numbers. */
  lemma EmptyListsShowNoPrimary(rec: Record)
    requires rec.emails == Present([]) || rec.emails.Absent? || rec.emails.Null?
    requires rec.phoneNumbers == Present([]) || rec.phoneNumbers.Absent? || rec.phoneNumbers.Null?
    ensures Render(rec).identity[1].text == NotFound
    ensures Render(rec).emails == [RowView("Email Address", NotFound, false, false)]
    ensures forall i :: 0 <= i < 5 ==> !Render(rec).identity[i].primaryBadge
    ensures Render(rec).noSecondaryNumbers
  {
    var c := Render(rec);
    var rows := IdentityRows(rec);
    assert forall i :: 0 <= i < 5 ==> c.identity[i] == ShowRow(rows[i]);
  }

  /** The object parsed from `{}` still renders: every identity row reads
      "Not found", the tier is low, and there is neither link nor summary. */
  lemma EmptyRecordRendersPlaceholders()
    ensures forall i :: 0 <= i < 5 ==> Render(EmptyRecord).identity[i].text == NotFound
    ensures Render(EmptyRecord).tier == Low
    ensures Render(EmptyRecord).profileLink == None && Render(EmptyRecord).summary == None
  {
    var rows := IdentityRows(EmptyRecord);
    assert forall i :: 0 <= i < 5 ==> !Truthy(rows[i].value);
  }
}
