/** The strings the script builds: the listing query and the outgoing message. */
module Mime {
  import opened Types

  /** The fixed text of the plain-text body part. */
  const Body: string := "Please see attached file."

  /** What precedes the file name in the attachment's Content-Disposition header. */
  const DispositionPrefix: string := "attachment; filename="

  /** What separates the folder id from the MIME type in a query. */
  const QueryMiddle: string := "' in parents AND mimeType='"

  /** Characters that end a header parameter value. */
  const ParamStops: set<char> := {';', '\r', '\n'}

  /** Characters that end a quoted value of a Drive query: the closing quote, and
      the backslash that would begin an escape sequence. */
  const QueryStops: set<char> := {'\'', '\\'}

  predicate NoneIn(s: string, stops: set<char>) {
    forall i :: 0 <= i < |s| ==> s[i] !in stops
  }

  /** The Drive search query: files whose parents include `folder` and whose
      MIME type is exactly `main/sub`; nothing in it is escaped. */
  function Query(folder: FolderId, mainType: string, subType: string): string {
    "'" + folder + QueryMiddle + mainType + "/" + subType + "'"
  }

  /** The Content-Disposition value: the file name follows the prefix unquoted. */
  function Disposition(name: string): string {
    DispositionPrefix + name
  }

  /** The message sent for one file: sender and recipient from the configuration,
      the file name as subject, the fixed body, and the payload attached under the
      configured MIME type. */
  function ComposeMessage(cfg: Config, meta: FileMeta, payload: Bytes): Message {
    Message(cfg.senderEmail, cfg.receiverEmail, meta.name, Body,
            Attachment(cfg.mimeMainType, cfg.mimeSubType, payload, Disposition(meta.name)))
  }

  /** The longest prefix of `s` holding none of `stops`. */
  function TakeUntil(s: string, stops: set<char>): (r: string)
    ensures |r| <= |s| && r == s[..|r|]
    ensures NoneIn(r, stops)
    ensures |r| < |s| ==> s[|r|] in stops
  {
    if s == [] || s[0] in stops then [] else [s[0]] + TakeUntil(s[1..], stops)
  }

  /** A literal reader of the filename parameter of a Content-Disposition value of
      the shape the script writes: the value runs to the first `;` or line break.
      It knows no quoting and strips no spaces, unlike a full MIME parser. */
  function FilenameParam(header: string): Option<string> {
    if |header| >= |DispositionPrefix| && header[..|DispositionPrefix|] == DispositionPrefix
    then Some(TakeUntil(header[|DispositionPrefix|..], ParamStops))
    else None
  }

  /** A reader of a query of the shape the script writes: the folder id and the
      MIME type are each a quoted value, read up to its closing quote. A backslash,
      which begins an escape in the query language, is not read as part of a value,
      so a query holding one is not read back. */
  function ParseQuery(q: string): Option<(FolderId, string)> {
    if |q| >= 1 && q[0] == '\'' then
      var folder := TakeUntil(q[1..], QueryStops);
      var rest := q[1 + |folder|..];
      if |rest| >= |QueryMiddle| && rest[..|QueryMiddle|] == QueryMiddle then
        var tail := rest[|QueryMiddle|..];
        var mimeType := TakeUntil(tail, QueryStops);
        if tail == mimeType + "'" then Some((folder, mimeType)) else None
      else None
    else None
  }

  /** A stop-free prefix followed by a stop character is exactly what TakeUntil keeps. */
  lemma TakeUntilConcat(a: string, b: string, stops: set<char>)
    requires NoneIn(a, stops)
    requires |b| > 0 && b[0] in stops
    ensures TakeUntil(a + b, stops) == a
  {
    var r := TakeUntil(a + b, stops);
    assert forall i :: 0 <= i < |a| ==> (a + b)[i] == a[i];
    assert (a + b)[|a|] == b[0];
    assert (a + b)[..|a|] == a;
  }

  /** A stop-free string is kept whole. */
  lemma TakeUntilWhole(a: string, stops: set<char>)
    requires NoneIn(a, stops)
    ensures TakeUntil(a, stops) == a
  {
  }

  /** The attachment's file name survives the header, as the literal reader reads
      it, exactly when it holds no character that ends a parameter value; the script
      does not escape it. */
  lemma FilenameRoundTrip(name: string)
    ensures FilenameParam(Disposition(name)) == Some(name) <==> NoneIn(name, ParamStops)
  {
    var h := Disposition(name);
    assert h[..|DispositionPrefix|] == DispositionPrefix;
    assert h[|DispositionPrefix|..] == name;
    if NoneIn(name, ParamStops) {
      TakeUntilWhole(name, ParamStops);
    }
  }

  /** The query names the configured folder and MIME type, and can be read back,
      exactly when neither holds a single quote or a backslash; the script does not
      escape them. */
  lemma QueryRoundTrip(folder: FolderId, mainType: string, subType: string)
    ensures ParseQuery(Query(folder, mainType, subType)) == Some((folder, mainType + "/" + subType))
            <==> NoneIn(folder, QueryStops) && NoneIn(mainType + "/" + subType, QueryStops)
  {
    var mt := mainType + "/" + subType;
    var q := Query(folder, mainType, subType);
    assert q == "'" + (folder + (QueryMiddle + (mt + "'")));
    assert q[1..] == folder + (QueryMiddle + (mt + "'"));
    var f := TakeUntil(q[1..], QueryStops);
    if NoneIn(folder, QueryStops) {
      TakeUntilConcat(folder, QueryMiddle + (mt + "'"), QueryStops);
      assert f == folder;
      var rest := q[1 + |folder|..];
      assert rest == QueryMiddle + (mt + "'");
      assert rest[..|QueryMiddle|] == QueryMiddle;
      var tail := rest[|QueryMiddle|..];
      assert tail == mt + "'";
      if NoneIn(mt, QueryStops) {
        TakeUntilConcat(mt, "'", QueryStops);
      } else {
        var m := TakeUntil(tail, QueryStops);
        assert tail != m + "'";
      }
    } else {
      assert f != folder;
    }
  }
}
