/**
 * The check on a support handle: an "@" followed by 5 to 32 letters,
 * digits or underscores, read as an anchored regular-expression match in
 * which the end anchor also accepts one trailing line feed.
 */
module Support {
  predicate IsHandleChar(c: char)
  {
    ('A' <= c <= 'Z') || ('a' <= c <= 'z') || ('0' <= c <= '9') || c == '_'
  }

  predicate AllHandleChars(s: string)
  {
    forall i :: 0 <= i < |s| ==> IsHandleChar(s[i])
  }

  /** The part after the "@", without one trailing line feed if there is one. */
  function HandleBody(s: string): (body: string)
    requires 1 <= |s|
    ensures s == s[..1] + body || s == s[..1] + body + "\n"
  {
    if 2 <= |s| && s[|s| - 1] == '\n' then s[1..|s| - 1] else s[1..]
  }

  function ValidHandle(s: string): (ok: bool)
    ensures ok ==> |s| >= 6 && s[0] == '@'
  {
    1 <= |s| && s[0] == '@' && 5 <= |HandleBody(s)| <= 32 && AllHandleChars(HandleBody(s))
  }

  /** Exactly the handles "@" + body and "@" + body + line feed pass, for a body of 5 to 32 handle characters. */
  lemma ValidHandleShape(s: string)
    ensures ValidHandle(s) <==>
      exists body :: 5 <= |body| <= 32 && AllHandleChars(body) && (s == "@" + body || s == "@" + body + "\n")
  {
    if ValidHandle(s) {
      var body := HandleBody(s);
      assert s[..1] == "@";
      assert 5 <= |body| <= 32 && AllHandleChars(body) && (s == "@" + body || s == "@" + body + "\n");
    }
    if exists body :: 5 <= |body| <= 32 && AllHandleChars(body) && (s == "@" + body || s == "@" + body + "\n") {
      var body :| 5 <= |body| <= 32 && AllHandleChars(body) && (s == "@" + body || s == "@" + body + "\n");
      assert s[0] == '@';
      if s == "@" + body {
        assert s[|s| - 1] == body[|body| - 1] && s[|s| - 1] != '\n';
        assert HandleBody(s) == body;
      } else {
        assert HandleBody(s) == body;
      }
    }
  }

  /** The default handle passes, and so does it with one trailing line feed. */
  lemma DefaultHandleValid()
    ensures ValidHandle("@arbacenco")
    ensures ValidHandle("@arbacenco\n")
  {
    var body := "arbacenco";
    assert forall i :: 0 <= i < |body| ==> 'a' <= body[i] <= 'z';
    assert HandleBody("@arbacenco") == body;
    assert HandleBody("@arbacenco\n") == body;
  }

  /** A body of four characters, a missing "@" and a character outside the class are refused. */
  lemma MalformedHandlesRefused()
    ensures !ValidHandle("@abcd")
    ensures !ValidHandle("arbacenco")
    ensures !ValidHandle("@arba-cenco")
  {
    assert HandleBody("@abcd") == "abcd";
    assert HandleBody("@arba-cenco")[4] == '-';
  }
}
