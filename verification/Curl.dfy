/** The curl command printed for a request, and the shell that would read it. */
module Curl {
  import opened Wrappers

  // ---- the printer ----

  const QUOTE := '\''
  const BACKSLASH := '\\'

  /** Every quote becomes: close the quotes, a quoted quote, open the quotes again. */
  function EscapeBody(s: string): string {
    if s == "" then ""
    else (if s[0] == QUOTE then [QUOTE, BACKSLASH, QUOTE, QUOTE] else [s[0]]) + EscapeBody(s[1..])
  }

  function BashEscape(s: string): string {
    [QUOTE] + EscapeBody(s) + [QUOTE]
  }

  function Join(words: seq<string>): string {
    if words == [] then ""
    else if |words| == 1 then words[0]
    else words[0] + " " + Join(words[1..])
  }

  // ---- the shell ----

  /** Characters that stand for themselves outside quotes. */
  predicate Plain(c: char) {
    'a' <= c <= 'z' || 'A' <= c <= 'Z' || '0' <= c <= '9' || c == '-' || c == '/' || c == '.' || c == ':'
  }

  datatype Quoting = Unquoted | Quoted

  /** Word splitting by sections 2.2.1, 2.2.2 and 2.3 of the POSIX.1-2017 Shell Command Language: blanks end
      a word, a backslash takes the next character literally, single quotes take everything up to the next
      single quote literally. `word` is the word being read, if any. Other special characters, and text that
      ends inside quotes, are not simple words: `None`. */
  function Split(s: string, q: Quoting, word: Option<string>): Option<seq<string>>
    decreases |s|
  {
    var sofar := if word.Some? then word.value else "";
    if s == "" then
      if q.Quoted? then None else Some(if word.Some? then [sofar] else [])
    else if q.Quoted? then
      if s[0] == QUOTE then Split(s[1..], Unquoted, Some(sofar))
      else Split(s[1..], Quoted, Some(sofar + [s[0]]))
    else if s[0] == QUOTE then Split(s[1..], Quoted, Some(sofar))
    else if s[0] == BACKSLASH then
      if |s| == 1 then None
      else if s[1] == '\n' then Split(s[2..], Unquoted, word)
      else Split(s[2..], Unquoted, Some(sofar + [s[1]]))
    else if s[0] == ' ' || s[0] == '\t' then
      var rest := Split(s[1..], Unquoted, None);
      if rest.None? then None else Some((if word.Some? then [sofar] else []) + rest.value)
    else if Plain(s[0]) then Split(s[1..], Unquoted, Some(sofar + [s[0]]))
    else None
  }

  function ShellWords(s: string): Option<seq<string>> {
    Split(s, Unquoted, None)
  }

  // ---- reading back ----

  /** One character inside quotes. */
  lemma ReadQuoted(c: char, tail: string, sofar: string)
    ensures Split([c] + tail, Quoted, Some(sofar))
            == if c == QUOTE then Split(tail, Unquoted, Some(sofar)) else Split(tail, Quoted, Some(sofar + [c]))
  {
    assert ([c] + tail)[1..] == tail;
  }

  /** Inside quotes, the escaped text adds exactly the original text to the word. */
  lemma {:induction false} ReadEscaped(s: string, rest: string, sofar: string)
    ensures Split(EscapeBody(s) + [QUOTE] + rest, Quoted, Some(sofar))
            == Split(rest, Unquoted, Some(sofar + s))
    decreases |s|
  {
    if s == "" {
      assert EscapeBody(s) + [QUOTE] + rest == [QUOTE] + rest;
      assert sofar + s == sofar;
      hide Split;
      ReadQuoted(QUOTE, rest, sofar);
    } else {
      assert EscapeBody(s)
             == (if s[0] == QUOTE then [QUOTE, BACKSLASH, QUOTE, QUOTE] else [s[0]]) + EscapeBody(s[1..]);
      hide Split, EscapeBody;
      var tail := EscapeBody(s[1..]) + [QUOTE] + rest;
      ReadEscaped(s[1..], rest, sofar + [s[0]]);
      assert sofar + s == sofar + [s[0]] + s[1..];
      if s[0] == QUOTE {
        assert EscapeBody(s) + [QUOTE] + rest == [QUOTE, BACKSLASH, QUOTE, QUOTE] + tail;
        ReadQuotedQuote(tail, sofar);
      } else {
        assert EscapeBody(s) + [QUOTE] + rest == [s[0]] + tail;
        ReadQuoted(s[0], tail, sofar);
      }
    }
  }

  lemma ReadQuotedQuote(tail: string, sofar: string)
    ensures Split([QUOTE, BACKSLASH, QUOTE, QUOTE] + tail, Quoted, Some(sofar))
            == Split(tail, Quoted, Some(sofar + [QUOTE]))
  {
    var t := [QUOTE, BACKSLASH, QUOTE, QUOTE] + tail;
    var t1, t2 := [BACKSLASH, QUOTE, QUOTE] + tail, [QUOTE] + tail;
    assert t[1..] == t1 && t1[2..] == t2 && t2[1..] == tail;
    assert Split(t, Quoted, Some(sofar)) == Split(t1, Unquoted, Some(sofar));
    assert Split(t1, Unquoted, Some(sofar)) == Split(t2, Unquoted, Some(sofar + [QUOTE]));
  }

  /** A word as the printer emits it: escaped, or plain and not empty. */
  datatype Word = Escaped(text: string) | Bare(text: string)
  {
    predicate Valid() {
      Bare? ==> text != "" && forall i :: 0 <= i < |text| ==> Plain(text[i])
    }

    function Shown(): string {
      if Escaped? then BashEscape(text) else text
    }
  }

  lemma {:induction false} ReadPlain(s: string, rest: string, sofar: string)
    requires forall i :: 0 <= i < |s| ==> Plain(s[i])
    ensures Split(s + rest, Unquoted, Some(sofar)) == Split(rest, Unquoted, Some(sofar + s))
    decreases |s|
  {
    if s == "" {
      assert s + rest == rest && sofar + s == sofar;
    } else {
      assert (s + rest)[1..] == s[1..] + rest;
      ReadPlain(s[1..], rest, sofar + [s[0]]);
      assert sofar + s == sofar + [s[0]] + s[1..];
    }
  }

  lemma ReadOpeningQuote(tail: string)
    ensures Split([QUOTE] + tail, Unquoted, None) == Split(tail, Quoted, Some(""))
  {
    assert ([QUOTE] + tail)[1..] == tail;
  }

  lemma ReadFirstPlain(c: char, tail: string)
    requires Plain(c)
    ensures Split([c] + tail, Unquoted, None) == Split(tail, Unquoted, Some([c]))
  {
    assert ([c] + tail)[1..] == tail;
    assert "" + [c] == [c];
  }

  /** Reading one printed word, whatever follows it. */
  lemma ReadWord(w: Word, rest: string)
    requires w.Valid()
    ensures Split(w.Shown() + rest, Unquoted, None) == Split(rest, Unquoted, Some(w.text))
  {
    hide Split, EscapeBody, Plain;
    var s := w.text;
    if w.Escaped? {
      var tail := EscapeBody(s) + [QUOTE] + rest;
      assert w.Shown() + rest == [QUOTE] + tail;
      ReadOpeningQuote(tail);
      ReadEscaped(s, rest, "");
      assert "" + s == s;
    } else {
      assert s + rest == [s[0]] + (s[1..] + rest);
      ReadFirstPlain(s[0], s[1..] + rest);
      ReadPlain(s[1..], rest, [s[0]]);
      assert [s[0]] + s[1..] == s;
    }
  }

  function Shown(ws: seq<Word>): (r: seq<string>)
    ensures |r| == |ws| && forall i :: 0 <= i < |r| ==> r[i] == ws[i].Shown()
  {
    seq(|ws|, i requires 0 <= i < |ws| => ws[i].Shown())
  }

  function Texts(ws: seq<Word>): (r: seq<string>)
    ensures |r| == |ws| && forall i :: 0 <= i < |r| ==> r[i] == ws[i].text
  {
    seq(|ws|, i requires 0 <= i < |ws| => ws[i].text)
  }

  ghost predicate AllValid(ws: seq<Word>) {
    forall i :: 0 <= i < |ws| ==> ws[i].Valid()
  }

  lemma FirstShown(ws: seq<Word>)
    requires ws != []
    ensures Shown(ws) == [ws[0].Shown()] + Shown(ws[1..])
  {
    hide BashEscape;
    var s, t := Shown(ws), Shown(ws[1..]);
    assert forall i :: 0 < i < |s| ==> s[i] == t[i - 1];
  }

  lemma FirstText(ws: seq<Word>)
    requires ws != []
    ensures Texts(ws) == [ws[0].text] + Texts(ws[1..])
  {
    var s, t := Texts(ws), Texts(ws[1..]);
    assert forall i :: 0 < i < |s| ==> s[i] == t[i - 1];
  }

  lemma JoinFirst(first: string, rest: seq<string>)
    ensures Join([first] + rest) == if rest == [] then first else first + (" " + Join(rest))
  {
    assert ([first] + rest)[1..] == rest;
    if rest != [] {
      assert first + " " + Join(rest) == first + (" " + Join(rest));
    }
  }

  /** Words with single blanks between them. */
  lemma {:induction false} JoinConcat(a: seq<string>, b: seq<string>, word: string)
    ensures Join([]) == "" && Join([word]) == word
    ensures a != [] && b != [] ==> Join(a + b) == Join(a) + " " + Join(b)
    decreases |a|
  {
    if a != [] && b != [] {
      assert a == [a[0]] + a[1..] && a + b == [a[0]] + (a[1..] + b);
      JoinConcat(a[1..], b, word);
      JoinFirst(a[0], a[1..] + b);
      JoinFirst(a[0], a[1..]);
      hide Join;
      if a[1..] == [] {
        assert a[1..] + b == b;
      } else {
        assert a[0] + (" " + (Join(a[1..]) + " " + Join(b))) == (a[0] + (" " + Join(a[1..]))) + " " + Join(b);
      }
    }
  }

  /** A word that is read up to the end, or up to a blank. */
  lemma ReadToBlank(word: string, rest: string)
    ensures Split("", Unquoted, Some(word)) == Some([word])
    ensures Split(" " + rest, Unquoted, Some(word))
            == if ShellWords(rest).None? then None else Some([word] + ShellWords(rest).value)
  {
    assert (" " + rest)[1..] == rest;
  }

  /** The shell reads back exactly the words that were printed. */
  lemma {:induction false} RoundTrip(ws: seq<Word>)
    requires AllValid(ws)
    ensures ShellWords(Join(Shown(ws))) == Some(Texts(ws))
    decreases |ws|
  {
    if ws != [] {
      hide Join, Split, Shown, Texts;
      var w, tail := ws[0], ws[1..];
      FirstShown(ws);
      FirstText(ws);
      JoinFirst(w.Shown(), Shown(tail));
      if tail == [] {
        assert Shown(tail) == [] && Texts(tail) == [];
        ReadToBlank(w.text, "");
        ReadWord(w, "");
        assert w.Shown() + "" == w.Shown() && [w.text] + [] == [w.text];
      } else {
        RoundTrip(tail);
        ReadToBlank(w.text, Join(Shown(tail)));
        ReadWord(w, " " + Join(Shown(tail)));
      }
    }
  }

  // ---- toCurl ----

  /** The order of sort.Strings. */
  predicate LexLess(a: string, b: string) {
    b != "" && (a == "" || a[0] < b[0] || (a[0] == b[0] && LexLess(a[1..], b[1..])))
  }

  /** The first difference is at `n`, where `a` ends or has the smaller character. */
  predicate DiffersAt(a: string, b: string, n: nat) {
    n <= |a| && n < |b| && a[..n] == b[..n] && (n == |a| || a[n] < b[n])
  }

  /** The first difference decides; a proper prefix comes first. */
  lemma {:induction false} LexLessMeans(a: string, b: string)
    ensures LexLess(a, b) <==> exists n: nat :: DiffersAt(a, b, n)
    decreases |a|
  {
    if a != "" && b != "" && a[0] == b[0] {
      LexLessMeans(a[1..], b[1..]);
      NotAtOnce(a, b);
      assert LexLess(a, b) == LexLess(a[1..], b[1..]);
      hide LexLess, DiffersAt;
      if m: nat :| DiffersAt(a, b, m) {
        var n: nat := m - 1;
        SameHead(a, b, n);
      }
      if n: nat :| DiffersAt(a[1..], b[1..], n) {
        SameHead(a, b, n);
      }
    } else {
      assert LexLess(a, b) <==> DiffersAt(a, b, 0);
      forall n: nat | n > 0 ensures !DiffersAt(a, b, n) {
        assert n <= |a| && n < |b| ==> a[..n][0] == a[0] && b[..n][0] == b[0];
      }
    }
  }

  lemma SameHead(a: string, b: string, n: nat)
    requires a != "" && b != "" && a[0] == b[0]
    ensures DiffersAt(a, b, n + 1) <==> DiffersAt(a[1..], b[1..], n)
  {
    if n < |a| && n + 1 < |b| {
      assert a[..n + 1] == [a[0]] + a[1..][..n] && b[..n + 1] == [b[0]] + b[1..][..n];
      assert a[1..][..n] == a[..n + 1][1..] && b[1..][..n] == b[..n + 1][1..];
    }
  }

  lemma NotAtOnce(a: string, b: string)
    requires a != "" && b != "" && a[0] == b[0]
    ensures !DiffersAt(a, b, 0)
  {
  }

  /** `keys` lists `s` in strictly increasing order. */
  ghost predicate SortedListing(keys: seq<string>, s: set<string>) {
    && (set k | k in keys) == s
    && forall i, j :: 0 <= i < j < |keys| ==> LexLess(keys[i], keys[j])
  }

  lemma {:induction false} LexTrichotomy(a: string, b: string)
    ensures a != b ==> LexLess(a, b) || LexLess(b, a)
    ensures !(LexLess(a, b) && LexLess(b, a)) && !LexLess(a, a)
  {
    if a != "" && b != "" {
      LexTrichotomy(a[1..], b[1..]);
      LexTrichotomy(a[1..], a[1..]);
      assert a == [a[0]] + a[1..] && b == [b[0]] + b[1..];
    } else if a != "" {
      LexTrichotomy(a[1..], a[1..]);
    }
  }

  lemma {:induction false} LexTransitive(a: string, b: string, c: string)
    requires LexLess(a, b) && LexLess(b, c)
    ensures LexLess(a, c)
  {
    if a != "" && a[0] == b[0] == c[0] {
      LexTransitive(a[1..], b[1..], c[1..]);
    }
  }

  /** There is only one sorted listing of a set. */
  lemma {:induction false} SortedListingUnique(a: seq<string>, b: seq<string>, s: set<string>)
    requires SortedListing(a, s) && SortedListing(b, s)
    ensures a == b
    decreases |a|
  {
    var first := if b == [] then "" else b[0];
    assert b != [] ==> first in b && first in s;
    if a != [] {
      assert a[0] in s && b != [] && b[0] in s && b[0] in a && a[0] in b;
      LexTrichotomy(a[0], b[0]);
      ListingTail(a, s);
      ListingTail(b, s);
      SortedListingUnique(a[1..], b[1..], s - {a[0]});
    }
  }

  lemma ListingTail(keys: seq<string>, s: set<string>)
    requires SortedListing(keys, s) && keys != []
    ensures SortedListing(keys[1..], s - {keys[0]})
  {
    LexTrichotomy(keys[0], keys[0]);
    assert forall k :: k in keys <==> k == keys[0] || k in keys[1..];
    assert keys[0] !in keys[1..];
  }

  method Least(s: set<string>) returns (m: string)
    requires s != {}
    ensures m in s && forall x :: x in s && x != m ==> LexLess(m, x)
  {
    m :| m in s;
    var left := s - {m};
    while left != {}
      invariant m in s && left <= s && m !in left
      invariant forall x :: x in s && x !in left && x != m ==> LexLess(m, x)
      decreases left
    {
      var x :| x in left;
      LexTrichotomy(x, m);
      if LexLess(x, m) {
        forall y | y in s && y !in left && y != m
          ensures LexLess(x, y)
        {
          LexTransitive(x, m, y);
        }
        m := x;
      }
      left := left - {x};
    }
  }

  method SortKeys(s: set<string>) returns (keys: seq<string>)
    ensures SortedListing(keys, s)
  {
    keys := [];
    var left := s;
    while left != {}
      invariant left <= s && SortedListing(keys, s - left)
      invariant forall k, l :: k in keys && l in left ==> LexLess(k, l)
      decreases left
    {
      var m := Least(left);
      LexTrichotomy(m, m);
      assert s - (left - {m}) == (s - left) + {m};
      keys := keys + [m];
      left := left - {m};
    }
  }

  /** A body that is absent, a stream with some text left to be read, or one that fails to be read. */
  datatype Body = NoBody | Readable(text: string) | Broken

  class HttpRequest {
    const verb: string
    const url: string
    const header: map<string, seq<string>>
    var body: Body

    constructor (verb: string, url: string, header: map<string, seq<string>>, body: Body)
      ensures this.verb == verb && this.url == url && this.header == header && this.body == body
    {
      this.verb, this.url, this.header, this.body := verb, url, header, body;
    }

    /** Reads the body to its end, which leaves nothing to be read. */
    method ReadAll() returns (text: Option<string>)
      requires !body.NoBody?
      modifies `body
      ensures text == if old(body).Readable? then Some(old(body).text) else None
      ensures body == if old(body).Readable? then Readable("") else old(body)
    {
      if body.Broken? {
        return None;
      }
      text := Some(body.text);
      body := Readable("");
    }
  }

  /** The words of the body part. */
  function BodyWords(body: Body): seq<Word> {
    if body.Readable? then [Bare("-d"), Escaped(body.text)] else []
  }

  /** The words of the header part: one `-H name: values` for each key. */
  function HeaderWords(header: map<string, seq<string>>, keys: seq<string>): seq<Word>
    requires forall i :: 0 <= i < |keys| ==> keys[i] in header
  {
    if keys == [] then []
    else
      var last := keys[|keys| - 1];
      HeaderWords(header, keys[..|keys| - 1]) + [Bare("-H"), Escaped(last + ": " + Join(header[last]))]
  }

  lemma FlagsValid()
    ensures Bare("curl").Valid() && Bare("-X").Valid() && Bare("-d").Valid() && Bare("-H").Valid()
  {
  }

  lemma ValidAppend(a: seq<Word>, b: seq<Word>)
    requires AllValid(a) && AllValid(b)
    ensures AllValid(a + b) && Shown(a + b) == Shown(a) + Shown(b)
  {
  }

  /** The words that curl is to be called with. */
  function CurlWords(verb: string, body: Body, header: map<string, seq<string>>, keys: seq<string>, url: string)
    : seq<Word>
    requires forall i :: 0 <= i < |keys| ==> keys[i] in header
  {
    [Bare("curl"), Bare("-X"), Escaped(verb)] + BodyWords(body) + HeaderWords(header, keys) + [Escaped(url)]
  }

  /** The arguments of the command: the verb; the text of the body, if there is one; each header name with its values;
      the address. */
  ghost predicate IsCommand(words: seq<string>, verb: string, text: Option<string>, header: map<string, seq<string>>,
                            keys: seq<string>, url: string)
  {
    var first := if text.Some? then 5 else 3;
    && |words| == first + 2 * |keys| + 1
    && words[0] == "curl" && words[1] == "-X" && words[2] == verb
    && (text.Some? ==> words[3] == "-d" && words[4] == text.value)
    && (forall i :: 0 <= i < |keys| ==> IsHeader(words, first + 2 * i, header, keys[i]))
    && words[|words| - 1] == url
  }

  /** The flag for one header, and its name with its values. */
  ghost predicate IsHeader(words: seq<string>, at: nat, header: map<string, seq<string>>, key: string) {
    && at + 1 < |words| && key in header
    && words[at] == "-H" && words[at + 1] == key + ": " + Join(header[key])
  }

  lemma {:induction false} HeaderTexts(header: map<string, seq<string>>, keys: seq<string>, i: nat)
    requires forall i :: 0 <= i < |keys| ==> keys[i] in header
    ensures |HeaderWords(header, keys)| == 2 * |keys|
    ensures i < |keys| ==>
              && HeaderWords(header, keys)[2 * i].text == "-H"
              && HeaderWords(header, keys)[2 * i + 1].text == keys[i] + ": " + Join(header[keys[i]])
    decreases |keys|
  {
    if keys != [] {
      HeaderTexts(header, keys[..|keys| - 1], i);
    }
  }

  lemma CurlArguments(verb: string, body: Body, header: map<string, seq<string>>, keys: seq<string>, url: string)
    requires forall i :: 0 <= i < |keys| ==> keys[i] in header
    ensures IsCommand(Texts(CurlWords(verb, body, header, keys, url)), verb,
                      if body.Readable? then Some(body.text) else None, header, keys, url)
  {
    hide CurlWords, Join, Texts;
    CommandAt(verb, body, header, keys, url, 0);
    forall i: nat | i < |keys|
      ensures var t, first := Texts(CurlWords(verb, body, header, keys, url)), if body.Readable? then 5 else 3;
              IsHeader(t, first + 2 * i, header, keys[i])
    {
      CommandAt(verb, body, header, keys, url, i);
    }
    hide IsHeader;
  }

  /** The fixed parts of the command, and the lines of one header. */
  lemma CommandAt(verb: string, body: Body, header: map<string, seq<string>>, keys: seq<string>, url: string, i: nat)
    requires forall i :: 0 <= i < |keys| ==> keys[i] in header
    ensures var t, first := Texts(CurlWords(verb, body, header, keys, url)), if body.Readable? then 5 else 3;
            && |t| == first + 2 * |keys| + 1 && t[0] == "curl" && t[1] == "-X" && t[2] == verb
            && (body.Readable? ==> t[3] == "-d" && t[4] == body.text) && t[|t| - 1] == url
            && (i < |keys| ==>
                  t[first + 2 * i] == "-H" && t[first + 2 * i + 1] == keys[i] + ": " + Join(header[keys[i]]))
  {
    var hs := HeaderWords(header, keys);
    HeaderTexts(header, keys, i);
    Placed(verb, body, hs, url, 2 * i);
    Placed(verb, body, hs, url, 2 * i + 1);
    hide HeaderWords, Join, BodyWords;
  }

  /** Where the parts of the command stand. */
  lemma Placed(verb: string, body: Body, hs: seq<Word>, url: string, i: nat)
    ensures var ws := [Bare("curl"), Bare("-X"), Escaped(verb)] + BodyWords(body) + hs + [Escaped(url)];
            var first := if body.Readable? then 5 else 3;
            && |ws| == first + |hs| + 1 && ws[0].text == "curl" && ws[1].text == "-X" && ws[2].text == verb
            && (body.Readable? ==> ws[3].text == "-d" && ws[4].text == body.text)
            && (i < |hs| ==> ws[first + i] == hs[i]) && ws[|ws| - 1].text == url
  {
  }

  /** A command under construction, with one more flag and its escaped argument. */
  lemma Extend(command: seq<string>, words: seq<Word>, flag: string, arg: string)
    requires AllValid(words) && command == Shown(words) && Bare(flag).Valid()
    ensures AllValid(words + [Bare(flag), Escaped(arg)])
    ensures command + [flag, BashEscape(arg)] == Shown(words + [Bare(flag), Escaped(arg)])
  {
    ValidAppend(words, [Bare(flag), Escaped(arg)]);
    assert Shown([Bare(flag), Escaped(arg)]) == [flag, BashEscape(arg)];
  }

  /** toCurl: the words of the command as printed. The body is read and put back. `keys` are the header names
      in the order used. */
  method ToCurl(req: HttpRequest) returns (command: seq<string>, ok: bool, ghost keys: seq<string>)
    modifies req`body
    ensures req.body == old(req.body)
    ensures ok <==> !req.body.Broken?
    ensures ok ==> SortedListing(keys, req.header.Keys) && forall i :: 0 <= i < |keys| ==> keys[i] in req.header
    ensures ok ==>
              var words := ShellWords(Join(command));
              var text := if req.body.Readable? then Some(req.body.text) else None;
              words.Some? && IsCommand(words.value, req.verb, text, req.header, keys, req.url)
  {
    FlagsValid();
    hide EscapeBody, Join, Plain, Split;
    keys := [];
    command := ["curl"];
    ghost var words := [Bare("curl")];
    Extend(command, words, "-X", req.verb);
    command := command + ["-X", BashEscape(req.verb)];
    words := words + [Bare("-X"), Escaped(req.verb)];
    if !req.body.NoBody? {
      var read := req.ReadAll();
      if read.None? {
        return command, false, keys;
      }
      var text := read.value;
      req.body := Readable(text);
      Extend(command, words, "-d", text);
      command := command + ["-d", BashEscape(text)];
      words := words + [Bare("-d"), Escaped(text)];
    }
    assert words == [Bare("curl"), Bare("-X"), Escaped(req.verb)] + BodyWords(req.body);
    var names := SortKeys(req.header.Keys);
    keys := names;
    assert forall i :: 0 <= i < |names| ==> names[i] in (set k | k in names);
    command := AppendHeaders(command, req.header, names);
    HeaderWordsValid(req.header, names);
    ValidAppend(words, HeaderWords(req.header, names));
    words := words + HeaderWords(req.header, names);
    command := command + [BashEscape(req.url)];
    ValidAppend(words, [Escaped(req.url)]);
    assert Shown([Escaped(req.url)]) == [BashEscape(req.url)];
    words := words + [Escaped(req.url)];
    assert words == CurlWords(req.verb, req.body, req.header, names, req.url);
    RoundTrip(words);
    CurlArguments(req.verb, req.body, req.header, names, req.url);
    return command, true, keys;
  }

  lemma {:induction false} HeaderWordsValid(header: map<string, seq<string>>, keys: seq<string>)
    requires forall i :: 0 <= i < |keys| ==> keys[i] in header
    ensures AllValid(HeaderWords(header, keys))
  {
    if keys != [] {
      HeaderWordsValid(header, keys[..|keys| - 1]);
      FlagsValid();
    }
  }

  method AppendHeaders(command: seq<string>, header: map<string, seq<string>>, names: seq<string>)
    returns (command': seq<string>)
    requires forall i :: 0 <= i < |names| ==> names[i] in header
    ensures command' == command + Shown(HeaderWords(header, names))
  {
    hide EscapeBody, Join, Plain;
    command' := command;
    for i := 0 to |names|
      invariant command' == command + Shown(HeaderWords(header, names[..i]))
    {
      var k := names[i];
      var line := k + ": " + Join(header[k]);
      assert names[..i + 1][..i] == names[..i];
      assert Shown(HeaderWords(header, names[..i + 1]))
             == Shown(HeaderWords(header, names[..i])) + ["-H", BashEscape(line)];
      command' := command' + ["-H", BashEscape(line)];
    }
    assert names[..|names|] == names;
  }
}
