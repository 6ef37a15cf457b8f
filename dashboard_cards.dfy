/**
 * What the dashboard cards derive from the application state
 * (components/DashboardCards.tsx): the account card's "fill in the agenda
 * form" gate and agenda fallback, the contract card's step rows and the
 * fixed confirmation link.
 */
module DashboardCards {
  import opened Types

  // ---------------------------------------------------------------------
  // Account card
  // ---------------------------------------------------------------------

  /** The values the account card shows, and whether its form button is there. */
  datatype AccountCardView = AccountCardView(
    nameLine: string,
    agendaLine: string,
    priceLine: string,
    benefitLine: string,
    expiryMinutes: int,
    showsFillAgendaButton: bool)

  /**
   * `data.agendaNumber === '-'`: no contract has been entered yet. While the
   * gate is open the agenda line reads "-"; an absent or empty agenda also
   * reads "-" but does not open the gate, since the comparison is strict.
   */
  predicate IsFormEmpty(data: UserAccount)
    ensures IsFormEmpty(data) ==> AgendaDisplay(data.agendaNumber) == "-"
    ensures data.agendaNumber in {None, Some("")} ==> !IsFormEmpty(data)
  {
    data.agendaNumber == Some("-")
  }

  /** `data.agendaNumber || '-'`: an absent or empty agenda reads as "-". */
  function AgendaDisplay(agendaNumber: Option<string>): (shown: string)
    ensures shown != ""
    ensures shown == "-" <==> agendaNumber in {None, Some(""), Some("-")}
    ensures agendaNumber.Some? && agendaNumber.value != "" ==> shown == agendaNumber.value
  {
    match agendaNumber
    case None => "-"
    case Some(a) => if a == "" then "-" else a
  }

  /** The account card for `data` (components/DashboardCards.tsx:30-100). */
  function RenderAccountCard(data: UserAccount): (view: AccountCardView)
    ensures view.showsFillAgendaButton <==> data.agendaNumber == Some("-")
    ensures view.agendaLine == AgendaDisplay(data.agendaNumber)
    ensures view.nameLine == data.name && view.priceLine == data.price && view.benefitLine == data.benefit
    ensures view.expiryMinutes == data.expiryMinutes
  {
    AccountCardView(data.name, AgendaDisplay(data.agendaNumber), data.price, data.benefit,
                    data.expiryMinutes, IsFormEmpty(data))
  }

  // ---------------------------------------------------------------------
  // Contract status card
  // ---------------------------------------------------------------------

  /** One rendered row: React key, label, description and status text. */
  datatype StepRow = StepRow(key: string, rowLabel: string, description: string, statusText: string)

  /** `{step.status}`: each status is shown by its own name. */
  function StatusText(s: Status): (text: string)
    ensures text == "Done" <==> s == Done
    ensures text == "Pending" <==> s == Pending
    ensures text == "Failed" <==> s == Failed
  {
    match s
    case Done => "Done"
    case Pending => "Pending"
    case Failed => "Failed"
  }

  lemma StatusTextInjective(a: Status, b: Status)
    requires StatusText(a) == StatusText(b)
    ensures a == b
  {
  }

  function RenderStep(step: ContractStep): StepRow {
    StepRow(step.key, step.stepLabel, step.description, StatusText(step.status))
  }

  /** `steps.map(...)` (components/DashboardCards.tsx:142-161): one row per step, in list order. */
  function RenderContractStatusCard(steps: seq<ContractStep>): (rows: seq<StepRow>)
    ensures |rows| == |steps|
    ensures forall i :: 0 <= i < |steps| ==>
      rows[i].key == steps[i].key && rows[i].rowLabel == steps[i].stepLabel &&
      rows[i].description == steps[i].description && rows[i].statusText == StatusText(steps[i].status)
  {
    if steps == [] then [] else [RenderStep(steps[0])] + RenderContractStatusCard(steps[1..])
  }

  // ---------------------------------------------------------------------
  // Confirmation link (components/DashboardCards.tsx:130-135)
  // ---------------------------------------------------------------------

  const AdvisorPhoneNumber: string := "6281385616098"
  /** The fixed message, written as word groups; the text is the one the button sends. */
  const ConfirmationMessage: string :=
    "Hallo Advisor , " + "saya telah " + "menyetujui " + "kontrak dan " + "mengikuti " +
    "semua " + "ketentuan " + "yang telah " + "di tetapkan ."
  /** `https://wa.me/${phoneNumber}?text=` */
  const ConfirmationUrlPrefix: string := "https://wa.me/" + AdvisorPhoneNumber + "?text="

  predicate IsAscii(s: string) {
    forall i :: 0 <= i < |s| ==> s[i] as int < 128
  }

  /** The characters `encodeURIComponent` leaves as they are (ECMA-262, 19.2.6.5). */
  predicate IsUnreserved(c: char) {
    ('A' <= c <= 'Z') || ('a' <= c <= 'z') || ('0' <= c <= '9') ||
    c in {'-', '_', '.', '!', '~', '*', '\'', '(', ')'}
  }

  predicate IsHexDigit(c: char) {
    ('0' <= c <= '9') || ('A' <= c <= 'F')
  }

  function HexDigit(n: nat): (c: char)
    requires n < 16
    ensures IsHexDigit(c) && IsUnreserved(c)
  {
    if n < 10 then ('0' as int + n) as char else ('A' as int + n - 10) as char
  }

  function HexValue(c: char): (n: nat)
    requires IsHexDigit(c)
    ensures n < 16
  {
    if c <= '9' then c as int - '0' as int else c as int - 'A' as int + 10
  }

  /** One byte as '%' and two upper-case hex digits. */
  function PercentByte(b: nat): (r: string)
    requires b < 256
    ensures |r| == 3 && r[0] == '%'
  {
    ['%', HexDigit(b / 16), HexDigit(b % 16)]
  }

  /**
   * One character as `encodeURIComponent` writes it: an unreserved ASCII
   * character stays, every other one becomes its UTF-8 bytes, each
   * percent-escaped (ECMA-262, 19.2.6.5 Encode).
   */
  function EncodeChar(c: char): (r: string)
    ensures forall i :: 0 <= i < |r| ==> IsUnreserved(r[i]) || r[i] == '%'
  {
    var cp := c as int;
    if cp < 0x80 then
      (if IsUnreserved(c) then [c] else PercentByte(cp))
    else if cp < 0x800 then
      PercentByte(0xC0 + cp / 0x40) + PercentByte(0x80 + cp % 0x40)
    else if cp < 0x10000 then
      PercentByte(0xE0 + cp / 0x1000) + PercentByte(0x80 + (cp / 0x40) % 0x40)
      + PercentByte(0x80 + cp % 0x40)
    else
      PercentByte(0xF0 + cp / 0x40000) + PercentByte(0x80 + (cp / 0x1000) % 0x40)
      + PercentByte(0x80 + (cp / 0x40) % 0x40) + PercentByte(0x80 + cp % 0x40)
  }

  /**
   * `encodeURIComponent`: each character encoded in turn. The result holds
   * only unreserved characters and '%', so no space, '&' or '#' can cut
   * the query parameter short.
   */
  function EncodeUriComponent(s: string): (r: string)
    ensures forall i :: 0 <= i < |r| ==> IsUnreserved(r[i]) || r[i] == '%'
  {
    if s == [] then [] else EncodeChar(s[0]) + EncodeUriComponent(s[1..])
  }

  /** `decodeURIComponent` on escapes of ASCII characters: the reference the encoder is checked against. */
  function DecodeUriComponent(s: string): string
  {
    if |s| >= 3 && s[0] == '%' && IsHexDigit(s[1]) && IsHexDigit(s[2])
       && HexValue(s[1]) * 16 + HexValue(s[2]) < 128
    then [(HexValue(s[1]) * 16 + HexValue(s[2])) as char] + DecodeUriComponent(s[3..])
    else if s == [] then []
    else [s[0]] + DecodeUriComponent(s[1..])
  }

  lemma DecodeEncodedChar(c: char, rest: string)
    requires c as int < 0x80
    ensures DecodeUriComponent(EncodeChar(c) + rest) == [c] + DecodeUriComponent(rest)
  {
    var e := EncodeChar(c) + rest;
    if IsUnreserved(c) {
      assert e[0] == c && e[1..] == rest;
    } else {
      var hi, lo := c as int / 16, c as int % 16;
      assert HexValue(HexDigit(hi)) == hi;
      assert HexValue(HexDigit(lo)) == lo;
      assert EncodeChar(c) == PercentByte(c as int);
      assert e[3..] == rest;
      assert ((hi * 16 + lo) as char) == c;
    }
  }

  /** Decoding undoes encoding: the link carries the message unchanged. */
  lemma {:induction false} DecodeEncode(s: string)
    requires IsAscii(s)
    ensures DecodeUriComponent(EncodeUriComponent(s)) == s
  {
    if s != [] {
      DecodeEncode(s[1..]);
      DecodeEncodedChar(s[0], EncodeUriComponent(s[1..]));
    }
  }

  /** `https://wa.me/${phoneNumber}?text=${encodeURIComponent(message)}` */
  function ConfirmationUrlFor(message: string): (url: string)
    ensures |ConfirmationUrlPrefix| <= |url| && url[..|ConfirmationUrlPrefix|] == ConfirmationUrlPrefix
    ensures forall i :: |ConfirmationUrlPrefix| <= i < |url| ==> IsUnreserved(url[i]) || url[i] == '%'
  {
    var text := EncodeUriComponent(message);
    var url := ConfirmationUrlPrefix + text;
    assert url[|ConfirmationUrlPrefix|..] == text;
    url
  }

  /** The query text of the link decodes back to the message it was built from. */
  lemma ConfirmationUrlCarries(message: string)
    requires IsAscii(message)
    ensures DecodeUriComponent(ConfirmationUrlFor(message)[|ConfirmationUrlPrefix|..]) == message
  {
    DecodeEncode(message);
  }

  lemma AsciiByMembership(s: string)
    requires forall c :: c in s ==> c as int < 128
    ensures IsAscii(s)
  {
    forall i | 0 <= i < |s|
      ensures s[i] as int < 128
    {
      assert s[i] in s;
    }
  }

  lemma AsciiAppend(a: string, b: string)
    requires IsAscii(a) && IsAscii(b)
    ensures IsAscii(a + b)
  {
    forall i | 0 <= i < |a + b|
      ensures (a + b)[i] as int < 128
    {
      if i < |a| {
        assert (a + b)[i] == a[i];
      } else {
        assert (a + b)[i] == b[i - |a|];
      }
    }
  }

  lemma MessageGroupsAscii()
    ensures IsAscii("Hallo Advisor , ")
    ensures IsAscii("saya telah ")
    ensures IsAscii("menyetujui ")
    ensures IsAscii("kontrak dan ")
    ensures IsAscii("mengikuti ")
    ensures IsAscii("semua ")
    ensures IsAscii("ketentuan ")
    ensures IsAscii("yang telah ")
    ensures IsAscii("di tetapkan .")
  {
    AsciiByMembership("Hallo Advisor , ");
    AsciiByMembership("saya telah ");
    AsciiByMembership("menyetujui ");
    AsciiByMembership("kontrak dan ");
    AsciiByMembership("mengikuti ");
    AsciiByMembership("semua ");
    AsciiByMembership("ketentuan ");
    AsciiByMembership("yang telah ");
    AsciiByMembership("di tetapkan .");
  }

  /** The confirmation message uses ASCII characters only: each word group does, and so does their concatenation. */
  lemma ConfirmationMessageIsAscii()
    ensures IsAscii(ConfirmationMessage)
  {
    MessageGroupsAscii();
    var prefix := "Hallo Advisor , ";
    AsciiAppend(prefix, "saya telah ");
    prefix := prefix + "saya telah ";
    AsciiAppend(prefix, "menyetujui ");
    prefix := prefix + "menyetujui ";
    AsciiAppend(prefix, "kontrak dan ");
    prefix := prefix + "kontrak dan ";
    AsciiAppend(prefix, "mengikuti ");
    prefix := prefix + "mengikuti ";
    AsciiAppend(prefix, "semua ");
    prefix := prefix + "semua ";
    AsciiAppend(prefix, "ketentuan ");
    prefix := prefix + "ketentuan ";
    AsciiAppend(prefix, "yang telah ");
    prefix := prefix + "yang telah ";
    AsciiAppend(prefix, "di tetapkan .");
    prefix := prefix + "di tetapkan .";
  }

  /**
   * The link the "Setujui & Konfirmasi" button opens: the fixed advisor
   * number and the fixed message; it reads no step and no account field.
   */
  function ConfirmationUrl(): (url: string)
    ensures |ConfirmationUrlPrefix| <= |url| && url[..|ConfirmationUrlPrefix|] == ConfirmationUrlPrefix
    ensures forall i :: |ConfirmationUrlPrefix| <= i < |url| ==> IsUnreserved(url[i]) || url[i] == '%'
  {
    ConfirmationUrlFor(ConfirmationMessage)
  }

  /** The advisor receives exactly the fixed confirmation message. */
  lemma ConfirmationUrlDeliversMessage()
    ensures DecodeUriComponent(ConfirmationUrl()[|ConfirmationUrlPrefix|..]) == ConfirmationMessage
  {
    ConfirmationMessageIsAscii();
    ConfirmationUrlCarries(ConfirmationMessage);
  }
}
