/**
  * The fallback `getallheaders` the plugin defines when the host does not
  * provide one: every server variable whose name starts with "HTTP_" is
  * turned into a header, its name converted from HTTP_HEADER_NAME to
  * Header-Name, its value copied unchanged.
  *
  * The server variables are a sequence of (name, value) pairs in
  * iteration order; the headers are a map, in which a later entry with
  * the same converted name overwrites an earlier one.
  */
module Headers {
  import opened Strings

  /** The prefix test `substr($name, 0, 5) === 'HTTP_'`. */
  predicate IsHttpName(name: string) {
    |name| >= 5 && name[..5] == "HTTP_"
  }

  /**
    * The conversion of the part after "HTTP_": '_' becomes ' ', the text
    * is lower-cased, every word is capitalised, and ' ' becomes '-'.
    */
  function ConvertName(rest: string): string {
    ReplaceChar(UcWords(Lower(ReplaceChar(rest, '_', ' '))), ' ', '-')
  }

  function HeaderKey(name: string): string
    requires IsHttpName(name)
  {
    ConvertName(name[5..])
  }

  /** A character after which the conversion starts a new word. */
  predicate StartsWordAfter(c: char) {
    c == '_' || IsWordDelimiter(c)
  }

  /**
    * Character by character, independently of the four-stage pipeline:
    * '_' and ' ' become '-', a character that starts a word is
    * upper-cased, every other character is lower-cased.
    */
  lemma ConvertNameAt(rest: string, i: nat)
    requires i < |rest|
    ensures |ConvertName(rest)| == |rest|
    ensures ConvertName(rest)[i] ==
      if rest[i] == '_' || rest[i] == ' ' then '-'
      else if i == 0 || StartsWordAfter(rest[i - 1]) then UpperChar(LowerChar(rest[i]))
      else LowerChar(rest[i])
  {
    var a := ReplaceChar(rest, '_', ' ');
    var l := Lower(a);
    var u := UcWords(l);
    assert u[i] == UcWordsAt(l, i);
    if i > 0 {
      assert IsWordDelimiter(l[i - 1]) <==> StartsWordAfter(rest[i - 1]);
    }
  }

  /** Converted names contain neither '_' nor ' '. */
  lemma ConvertNameClean(rest: string)
    ensures '_' !in ConvertName(rest) && ' ' !in ConvertName(rest)
  {
    var r := ConvertName(rest);
    forall i | 0 <= i < |r| ensures r[i] != '_' && r[i] != ' ' {
      ConvertNameAt(rest, i);
    }
  }

  /**
    * Segment shape: an upper-case letter appears only at the start of the
    * name, after a '-', or after one of the other word delimiters.
    */
  lemma {:induction false} ConvertNameSegments(rest: string, i: nat)
    requires 0 < i < |ConvertName(rest)|
    requires IsUpper(ConvertName(rest)[i])
    ensures ConvertName(rest)[i - 1] == '-' || IsWordDelimiter(ConvertName(rest)[i - 1])
  {
    ConvertNameAt(rest, i);
    ConvertNameAt(rest, i - 1);
  }

  /** "X-XSS-Protection" is not the conversion of any name. */
  lemma NeverXssProtection(rest: string)
    ensures ConvertName(rest) != "X-XSS-Protection"
  {
    var r := ConvertName(rest);
    var t := "X-XSS-Protection";
    assert t[2] == 'X' && t[3] == 'S';
    if |r| == |t| && r[2] == 'X' {
      if IsUpper(r[3]) {
        ConvertNameSegments(rest, 3);
      }
      assert r[3] != 'S';
    }
  }

  lemma ConvertFrameOptions()
    ensures ConvertName("X_FRAME_OPTIONS") == "X-Frame-Options"
  {
  }

  lemma ConvertXssProtection()
    ensures ConvertName("X_XSS_PROTECTION") == "X-Xss-Protection"
  {
  }

  /** The headers after the loop has visited `server`, left to right. */
  function HeadersOf(server: seq<(string, string)>): map<string, string>
  {
    if server == [] then map[]
    else
      var h := HeadersOf(server[..|server| - 1]);
      var last := server[|server| - 1];
      if IsHttpName(last.0) then h[HeaderKey(last.0) := last.1] else h
  }

  /** The fallback itself: the loop over the server variables. */
  method GetAllHeaders(server: seq<(string, string)>) returns (headers: map<string, string>)
    ensures headers == HeadersOf(server)
  {
    headers := map[];
    var i := 0;
    while i < |server|
      invariant 0 <= i <= |server|
      invariant headers == HeadersOf(server[..i])
    {
      var (name, value) := server[i];
      assert server[..i + 1][..i] == server[..i];
      if |name| >= 5 && name[..5] == "HTTP_" {
        var key := ReplaceChar(UcWords(Lower(ReplaceChar(name[5..], '_', ' '))), ' ', '-');
        headers := headers[key := value];
      }
      i := i + 1;
    }
    assert server[..|server|] == server;
  }

  /** Entry `i` is an HTTP_ variable whose header name is `key`. */
  predicate ConvertsTo(server: seq<(string, string)>, i: int, key: string) {
    0 <= i < |server| && IsHttpName(server[i].0) && HeaderKey(server[i].0) == key
  }

  /** A header is present exactly when some HTTP_ variable converts to its name. */
  lemma {:induction false} HeadersDomain(server: seq<(string, string)>, key: string)
    ensures key in HeadersOf(server) <==> exists i :: ConvertsTo(server, i, key)
  {
    if server != [] {
      var n := |server| - 1;
      var init := server[..n];
      HeadersDomain(init, key);
      if key in HeadersOf(server) {
        if ConvertsTo(server, n, key) {
        } else {
          assert key in HeadersOf(init);
          var i :| ConvertsTo(init, i, key);
          assert ConvertsTo(server, i, key);
        }
      }
      if exists i :: ConvertsTo(server, i, key) {
        var i :| ConvertsTo(server, i, key);
        if i < n {
          assert ConvertsTo(init, i, key);
          assert key in HeadersOf(init);
        }
        assert key in HeadersOf(server);
      }
    }
  }

  /**
    * A present header holds the value of the last variable converting to
    * its name: later variables overwrite earlier ones.
    */
  lemma {:induction false} HeadersLastWins(server: seq<(string, string)>, key: string)
    requires key in HeadersOf(server)
    ensures exists i :: ConvertsTo(server, i, key) && HeadersOf(server)[key] == server[i].1
                        && forall j :: i < j < |server| ==> !ConvertsTo(server, j, key)
  {
    var n := |server| - 1;
    var init := server[..n];
    if ConvertsTo(server, n, key) {
      assert HeadersOf(server)[key] == server[n].1;
    } else {
      assert key in HeadersOf(init);
      HeadersLastWins(init, key);
      var i :| ConvertsTo(init, i, key) && HeadersOf(init)[key] == init[i].1
               && forall j :: i < j < |init| ==> !ConvertsTo(init, j, key);
      assert ConvertsTo(server, i, key);
      forall j | i < j < |server| ensures !ConvertsTo(server, j, key) {
        if j < n {
          assert !ConvertsTo(init, j, key);
        }
      }
    }
  }

  /** The number of HTTP_ variables. */
  function HttpCount(server: seq<(string, string)>): nat {
    if server == [] then 0
    else HttpCount(server[..|server| - 1]) + (if IsHttpName(server[|server| - 1].0) then 1 else 0)
  }

  /** There are never more headers than HTTP_ variables. */
  lemma {:induction false} HeadersSize(server: seq<(string, string)>)
    ensures |HeadersOf(server)| <= HttpCount(server)
  {
    if server != [] {
      var n := |server| - 1;
      HeadersSize(server[..n]);
      var h := HeadersOf(server[..n]);
      if IsHttpName(server[n].0) {
        var k := HeaderKey(server[n].0);
        assert h[k := server[n].1].Keys == h.Keys + {k};
        assert |h.Keys + {k}| <= |h.Keys| + |{k}|;
      }
    }
  }

  /** No header name contains '_' or ' '. */
  lemma HeaderKeysClean(server: seq<(string, string)>, key: string)
    requires key in HeadersOf(server)
    ensures '_' !in key && ' ' !in key
  {
    HeadersDomain(server, key);
    var i :| ConvertsTo(server, i, key);
    ConvertNameClean(server[i].0[5..]);
  }

  /** The fallback never yields the "X-XSS-Protection" header the security probe looks up. */
  lemma FallbackLacksXssProtection(server: seq<(string, string)>)
    ensures "X-XSS-Protection" !in HeadersOf(server)
  {
    HeadersDomain(server, "X-XSS-Protection");
    forall i | 0 <= i < |server| && IsHttpName(server[i].0)
      ensures HeaderKey(server[i].0) != "X-XSS-Protection"
    {
      NeverXssProtection(server[i].0[5..]);
    }
  }

  /**
    * The headers the probes see: the host's own `getallheaders` when it
    * exists, the fallback otherwise.
    */
  function EffectiveHeaders(native: Option<map<string, string>>, server: seq<(string, string)>): (r: map<string, string>)
    ensures native.Some? ==> r == native.value
    ensures native.None? ==> r == HeadersOf(server)
    ensures native.None? ==> "X-XSS-Protection" !in r
  {
    match native
    case Some(h) => h
    case None => FallbackLacksXssProtection(server); HeadersOf(server)
  }
}
