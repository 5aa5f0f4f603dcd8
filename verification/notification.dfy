/** The notification e-mail the handler sends: its sender, recipient and
    subject line; the name, e-mail, phone (or "Not provided") and message
    of the text part; and the name paragraph, the e-mail as a `mailto:`
    link, the phone paragraph and the message of the HTML part, where
    every line feed becomes `<br>`. The surrounding template markup and
    the send timestamp are not part of this model. */
module Notification {
  import opened Wrappers
  import opened JsText
  import opened Validation

  const Br := "<br>"

  /** The number of line feeds in `s`. */
  function CountNewlines(s: string): nat {
    if s == [] then 0 else (if s[0] == '\n' then 1 else 0) + CountNewlines(s[1..])
  }

  /** How one character of the message appears in the HTML part. */
  function Render(c: char): string {
    if c == '\n' then Br else [c]
  }

  /** `s.replace(/\n/g, '<br>')`. */
  function NewlinesToBr(s: string): string {
    if s == [] then [] else Render(s[0]) + NewlinesToBr(s[1..])
  }

  /** Every line feed is replaced and nothing else changes: no line feed
      is left, each one grew by three characters, and text without line
      feeds is unchanged. */
  lemma {:induction false} NewlinesToBrReplacesAll(s: string)
    ensures '\n' !in NewlinesToBr(s)
    ensures |NewlinesToBr(s)| == |s| + 3 * CountNewlines(s)
    ensures '\n' !in s ==> NewlinesToBr(s) == s
  {
    if s != [] {
      NewlinesToBrReplacesAll(s[1..]);
      assert NewlinesToBr(s) == Render(s[0]) + NewlinesToBr(s[1..]);
      assert '\n' !in Render(s[0]);
      if '\n' !in s {
        assert '\n' !in s[1..] by {
          assert forall c :: c in s[1..] ==> c in s;
        }
        assert s == [s[0]] + s[1..];
      }
    }
  }

  /** `h` holds the tag `<br>` at index `i`. */
  predicate BrAt(h: string, i: int) {
    0 <= i && i + 4 <= |h| && h[i] == '<' && h[i + 1] == 'b' && h[i + 2] == 'r' && h[i + 3] == '>'
  }

  /** `h` begins with the tag `<br>`. */
  predicate StartsWithBr(h: string) {
    BrAt(h, 0)
  }

  /** `s` nowhere contains the text `<br>`. */
  predicate NoBrTag(s: string) {
    forall i :: 0 <= i < |s| ==> !BrAt(s, i)
  }

  /** Reads the HTML back: every `<br>` becomes a line feed again. */
  function BrToNewlines(h: string): string {
    if h == [] then []
    else if StartsWithBr(h) then "\n" + BrToNewlines(h[4..])
    else [h[0]] + BrToNewlines(h[1..])
  }

  /** A rendering that does not start with `<` starts with the first
      character of the text, kept as it is. */
  lemma RenderedHead(t: string)
    requires NewlinesToBr(t) != [] && NewlinesToBr(t)[0] != '<'
    ensures t != [] && t[0] == NewlinesToBr(t)[0]
    ensures NewlinesToBr(t)[1..] == NewlinesToBr(t[1..])
  {
    assert t != [];
    assert NewlinesToBr(t) == Render(t[0]) + NewlinesToBr(t[1..]);
    assert Render(t[0]) == [t[0]];
  }

  /** The rendering adds a `<br>` after a kept character only where the
      text itself has one. */
  lemma BrOnlyFromText(s: string)
    requires s != [] && s[0] != '\n'
    ensures StartsWithBr([s[0]] + NewlinesToBr(s[1..])) ==> BrAt(s, 0)
  {
    var r1 := NewlinesToBr(s[1..]);
    if StartsWithBr([s[0]] + r1) {
      assert r1[0] == 'b';
      RenderedHead(s[1..]);
      var r2 := NewlinesToBr(s[2..]);
      assert r1[1..] == r2 && r2[0] == 'r';
      RenderedHead(s[2..]);
      var r3 := NewlinesToBr(s[3..]);
      assert r2[1..] == r3 && r3[0] == '>';
      RenderedHead(s[3..]);
      assert s[1] == 'b' && s[2] == 'r' && s[3] == '>';
    }
  }

  /** A message that does not itself contain the text `<br>` survives the
      round trip through the HTML rendering: its line breaks, and only
      those, come back. The message is put into the HTML unescaped, so a
      `<br>` typed by the submitter reads back as a line break. */
  lemma {:induction false} BrRoundTrip(s: string)
    requires NoBrTag(s)
    ensures BrToNewlines(NewlinesToBr(s)) == s
  {
    if s != [] {
      assert NoBrTag(s[1..]) by {
        forall i | 0 <= i < |s| - 1 ensures !BrAt(s[1..], i) {
          assert !BrAt(s, i + 1);
        }
      }
      BrRoundTrip(s[1..]);
      var rest := NewlinesToBr(s[1..]);
      var h := NewlinesToBr(s);
      if s[0] == '\n' {
        assert h == Render(s[0]) + rest == Br + rest;
        assert StartsWithBr(h) && h[4..] == rest;
        assert BrToNewlines(h) == "\n" + BrToNewlines(rest);
      } else {
        assert h == Render(s[0]) + rest == [s[0]] + rest;
        BrOnlyFromText(s);
        assert !StartsWithBr(h) && h[1..] == rest;
        assert BrToNewlines(h) == [s[0]] + BrToNewlines(rest);
      }
      assert s == [s[0]] + s[1..];
    }
  }

  /** The rendering works line by line: it distributes over concatenation. */
  lemma {:induction false} NewlinesToBrAppend(a: string, b: string)
    ensures NewlinesToBr(a + b) == NewlinesToBr(a) + NewlinesToBr(b)
  {
    if a == [] {
      assert a + b == b;
    } else {
      assert (a + b)[0] == a[0] && (a + b)[1..] == a[1..] + b;
      NewlinesToBrAppend(a[1..], b);
      calc {
        NewlinesToBr(a + b);
        Render(a[0]) + NewlinesToBr(a[1..] + b);
        Render(a[0]) + (NewlinesToBr(a[1..]) + NewlinesToBr(b));
        (Render(a[0]) + NewlinesToBr(a[1..])) + NewlinesToBr(b);
      }
    }
  }

  /** The outgoing e-mail, reduced to the parts the handler computes:
      the values interpolated into the text part and the paragraphs of
      the HTML part. */
  datatype Mail = Mail(
    from: string,
    to: string,
    subject: string,
    textName: string,
    textEmail: string,
    textPhone: string,
    textMessage: string,
    htmlName: string,
    htmlEmail: string,
    htmlPhone: string,
    htmlMessage: string)

  const SubjectPrefix := "New Portfolio Inquiry from "
  const PhoneMissing := "Not provided"

  /** The recipient: the configured override when it is set and non-empty,
      otherwise the sending account itself. */
  function Recipient(recipientEmail: Option<string>, user: string): (to: string)
    ensures Truthy(recipientEmail) ==> to == recipientEmail.value
    ensures !Truthy(recipientEmail) ==> to == user
  {
    Or(recipientEmail, Some(user)).GetOr(user)
  }

  function NameParagraph(name: string): string {
    "<p><strong>Name:</strong> " + name + "</p>"
  }

  const EmailOpen := "<p><strong>Email:</strong> <a href=\"mailto:"
  const EmailMiddle := "\">"
  const EmailClose := "</a></p>"

  /** The e-mail paragraph: the address as a `mailto:` link. */
  function EmailParagraph(email: string): string {
    EmailOpen + email + EmailMiddle + email + EmailClose
  }

  function PhoneParagraph(phone: string): string {
    "<p><strong>Phone:</strong> " + phone + "</p>"
  }

  /** The e-mail paragraph determines the address the site owner replies
      to: different addresses never give the same paragraph. */
  lemma ReplyAddressRecoverable(a: string, b: string)
    requires EmailParagraph(a) == EmailParagraph(b)
    ensures a == b
  {
    var x := EmailParagraph(a);
    var n := |EmailOpen|;
    assert |x| == n + 2 * |a| + |EmailMiddle| + |EmailClose|;
    assert |x| == n + 2 * |b| + |EmailMiddle| + |EmailClose|;
    forall k | 0 <= k < |a| ensures a[k] == b[k] {
      assert a[k] == x[n + k];
      assert b[k] == EmailParagraph(b)[n + k];
    }
  }

  /** The e-mail for a validated submission, sent from account `user`. */
  function ComposeMail(sub: Submission, user: string, recipientEmail: Option<string>): (m: Mail)
    ensures m.to == Recipient(recipientEmail, user)
    ensures m.subject == SubjectPrefix + sub.name
    ensures m.from == "\"Portfolio Contact\" <" + user + ">"
    ensures m.textName == sub.name && m.textEmail == sub.email && m.textMessage == sub.message
    ensures Truthy(sub.phone) ==> m.textPhone == sub.phone.value
    ensures !Truthy(sub.phone) ==> m.textPhone == PhoneMissing
    ensures m.htmlName == NameParagraph(sub.name)
    ensures m.htmlEmail == EmailParagraph(sub.email)
    ensures Truthy(sub.phone) ==> m.htmlPhone == PhoneParagraph(sub.phone.value)
    ensures !Truthy(sub.phone) ==> m.htmlPhone == []
    ensures m.htmlMessage == NewlinesToBr(sub.message)
    ensures '\n' !in m.htmlMessage
    ensures NoBrTag(sub.message) ==> BrToNewlines(m.htmlMessage) == sub.message
  {
    var m := Mail(
      "\"Portfolio Contact\" <" + user + ">",
      Recipient(recipientEmail, user),
      SubjectPrefix + sub.name,
      sub.name,
      sub.email,
      if Truthy(sub.phone) then sub.phone.value else PhoneMissing,
      sub.message,
      NameParagraph(sub.name),
      EmailParagraph(sub.email),
      if Truthy(sub.phone) then PhoneParagraph(sub.phone.value) else "",
      NewlinesToBr(sub.message));
    NewlinesToBrReplacesAll(sub.message);
    if NoBrTag(sub.message) then BrRoundTrip(sub.message); m else m
  }
}
