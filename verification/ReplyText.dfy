/** What the reader of the reply SMS can rely on. */
module ReplyText {
  import opened Text
  import opened Gnmi

  /** One piece of text per row; all but the first begin with a blank. */
  function Pieces(rows: seq<Row>): seq<string> {
    seq(|rows|, i requires 0 <= i < |rows| => if i == 0 then RowText(rows[0]) else " " + RowText(rows[i]))
  }

  lemma OnePieceMore(a: string, b: string)
    requires ';' !in b
    ensures Split(a + "; " + b, ';') == Split(a, ';') + [" " + b]
  {
    assert a + "; " + b == a + [';'] + (" " + b);
    SplitAfter(a, " " + b, ';');
    SplitOfPlain(" " + b, ';');
  }

  lemma OneRowMore(rows: seq<Row>)
    requires |rows| > 1
    ensures var front, last := rows[..|rows| - 1], RowText(rows[|rows| - 1]);
            RowsText(rows) == RowsText(front) + "; " + last && Pieces(rows) == Pieces(front) + [" " + last]
  {
    var front, last := rows[..|rows| - 1], RowText(rows[|rows| - 1]);
    forall i | 0 <= i < |rows|
      ensures Pieces(rows)[i] == (Pieces(front) + [" " + last])[i]
    {
    }
  }

  predicate NoSemicolon(rows: seq<Row>) {
    forall i :: 0 <= i < |rows| ==> ';' !in RowText(rows[i])
  }

  lemma {:induction false} RowsReadBack(rows: seq<Row>)
    requires rows != [] && NoSemicolon(rows)
    ensures Split(RowsText(rows), ';') == Pieces(rows)
  {
    var front, last := rows[..|rows| - 1], RowText(rows[|rows| - 1]);
    if |rows| == 1 {
      SplitOfPlain(last, ';');
    } else {
      assert NoSemicolon(front);
      RowsReadBack(front);
      OneRowMore(rows);
      OnePieceMore(RowsText(front), last);
    }
  }

  /** The path ends at the first equals sign; then comes the value, or the error in angle
      brackets and no value. */
  lemma RowReadsBack(row: Row)
    requires '=' !in row.xpath
    ensures Split(RowText(row), '=')[0] == row.xpath
    ensures |row.xpath| < |RowText(row)|
    ensures RowText(row)[|row.xpath| + 1..] == if row.error == "" then row.value else "<" + row.error + ">"
  {
    var rest := if row.error == "" then row.value else "<" + row.error + ">";
    assert RowText(row) == row.xpath + ['='] + rest;
    SplitAfter(row.xpath, rest, '=');
    SplitOfPlain(row.xpath, '=');
  }

  /** A reply that fits one SMS can be taken apart again into the rows. */
  lemma ReplyReadsBack(r: Result)
    requires r.ok && r.rows != [] && |RowsText(r.rows)| <= 148 && NoSemicolon(r.rows)
    ensures var text := GetReplyText(r);
            |text| >= 12 && text[..12] == "OK GNMI GET " && Split(text[12..], ';') == Pieces(r.rows)
  {
    RowsReadBack(r.rows);
    assert ("OK GNMI GET " + RowsText(r.rows))[12..] == RowsText(r.rows);
  }

  /** A longer one shows its first 157 characters and says that it was cut. */
  lemma LongReplyIsCut(r: Result)
    requires r.ok && |RowsText(r.rows)| > 148
    ensures var text := GetReplyText(r);
            |text| == 160 && text[..12] == "OK GNMI GET " && text[12..157] == RowsText(r.rows)[..145] && text[157..] == "..."
  {
    var full := "OK GNMI GET " + RowsText(r.rows);
    assert full[..157][12..] == RowsText(r.rows)[..145];
    var text := GetReplyText(r);
    assert text == full[..157] + "...";
    assert text[12..157] == full[..157][12..];
  }

  /** A text that fits is kept; one that does not is cut to the limit, with three dots at the end
      if there is room for more than them. */
  lemma ClampKeepsBeginning(s: string, max: nat)
    ensures var t := ClampSms(s, max);
            && |t| == (if |s| <= max then |s| else max)
            && (|s| <= max ==> t == s)
            && (|s| > max && max <= 3 ==> t <= s)
            && (|s| > max > 3 ==> t[..max - 3] == s[..max - 3] && t[max - 3..] == "...")
  {
  }

  /** A failure is told by the server's own words if there are any, else by its status. */
  lemma FailureIsNamed(r: Result)
    requires !r.ok && |r.message| <= 147
    ensures r.message != "" ==> GetReplyText(r) == "ERR GNMI GET " + r.message
    ensures r.message == "" && r.status == -1 ==> GetReplyText(r) == "ERR GNMI GET transport error"
    ensures r.message == "" && r.status == 0 ==> GetReplyText(r) == "ERR GNMI GET failed"
    ensures r.message == "" && r.status == 5 ==> GetReplyText(r) == "ERR GNMI GET not found"
    ensures r.message == "" && r.status == 7 ==> GetReplyText(r) == "ERR GNMI GET permission denied"
    ensures r.message == "" && r.status == 14 ==> GetReplyText(r) == "ERR GNMI GET unavailable"
  {
  }

  // ------------------------------------------------------------- the status

  /** The canonical gRPC codes, by name. */
  lemma CanonicalStatusNames()
    ensures StatusText(1) == "cancelled" && StatusText(2) == "unknown" && StatusText(3) == "invalid argument"
    ensures StatusText(4) == "deadline exceeded" && StatusText(5) == "not found" && StatusText(6) == "already exists"
    ensures StatusText(7) == "permission denied" && StatusText(8) == "resource exhausted"
  {
  }

  lemma MoreStatusNames()
    ensures StatusText(9) == "failed precondition" && StatusText(10) == "aborted" && StatusText(11) == "out of range"
    ensures StatusText(12) == "unimplemented" && StatusText(13) == "internal" && StatusText(14) == "unavailable"
    ensures StatusText(15) == "data loss" && StatusText(16) == "unauthenticated"
  {
  }

  /** The number a string of decimal digits stands for. */
  function Value(s: string): int {
    if s == "" then 0 else 10 * Value(s[..|s| - 1]) + (s[|s| - 1] as int - '0' as int)
  }

  lemma {:induction false} DecimalReadsBack(n: nat)
    ensures Value(Decimal(n)) == n && Decimal(n) != "" && forall ch | ch in Decimal(n) :: '0' <= ch <= '9'
  {
    if n < 10 {
      assert Decimal(n)[..0] == "";
    } else {
      DecimalReadsBack(n / 10);
      DecimalReadsBack(n % 10);
      assert |Decimal(n % 10)| == 1;
      assert Decimal(n)[..|Decimal(n)| - 1] == Decimal(n / 10);
      assert Decimal(n % 10)[..0] == "";
    }
  }

  /** Any other status is given by its number, with a minus sign if it is negative. */
  lemma OtherStatusIsNumbered(code: int)
    requires code < -1 || code > 16
    ensures StatusText(code) == "status " + if code < 0 then "-" + Decimal(-code) else Decimal(code)
  {
  }
}
