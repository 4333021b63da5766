/**
 * The comma-separated option list of the field editor
 * (src/app/components/field-config-panel/field-config-panel.component.ts):
 * the text box shows the options joined with `", "`, and `updateOptions` /
 * `updateChildFieldOptions` read it back by splitting at commas, trimming
 * each piece and dropping the empty ones.
 */
module OptionParsing {
  import opened Strings

  /** An option the parser can produce: non-empty, trimmed, without a comma. */
  predicate CleanOption(o: string)
  {
    o != "" && IsTrimmed(o) && ',' !in o
  }

  predicate AllClean(opts: seq<string>)
  {
    forall i :: 0 <= i < |opts| ==> CleanOption(opts[i])
  }

  /** `.map(opt => opt.trim()).filter(opt => opt)`: trims every piece and keeps the non-empty ones, in order. */
  function CleanPieces(pieces: seq<string>): (r: seq<string>)
    ensures |r| <= |pieces|
  {
    if pieces == [] then []
    else
      var t := Trim(pieces[0]);
      if t == "" then CleanPieces(pieces[1..]) else [t] + CleanPieces(pieces[1..])
  }

  /** Trimming adds no character, so comma-free pieces give clean options. */
  lemma {:induction false} CleanPiecesCommaFree(pieces: seq<string>)
    requires forall i :: 0 <= i < |pieces| ==> ',' !in pieces[i]
    ensures AllClean(CleanPieces(pieces))
  {
    if pieces != [] {
      CleanPiecesCommaFree(pieces[1..]);
      var t := Trim(pieces[0]);
      var rest := CleanPieces(pieces[1..]);
      TrimProperties(pieces[0]);
      if t != "" {
        assert ',' !in pieces[0];
        assert CleanOption(t);
        forall i | 0 < i < |[t] + rest| ensures CleanOption(([t] + rest)[i]) {
          assert ([t] + rest)[i] == rest[i - 1];
        }
      }
    }
  }

  /** Cleaning works piece by piece, so it keeps the input order. */
  lemma {:induction false} CleanPiecesAppend(a: seq<string>, b: seq<string>)
    ensures CleanPieces(a + b) == CleanPieces(a) + CleanPieces(b)
  {
    if a != [] {
      assert (a + b)[0] == a[0];
      assert (a + b)[1..] == a[1..] + b;
      CleanPiecesAppend(a[1..], b);
    } else {
      assert a + b == b;
    }
  }

  /** `value.split(',').map(opt => opt.trim()).filter(opt => opt)`. */
  function ParseOptions(s: string): (r: seq<string>)
    ensures AllClean(r)
  {
    CleanPiecesCommaFree(Split(s, ','));
    CleanPieces(Split(s, ','))
  }

  /** `options.join(', ')`: what the editor shows for a field's options. */
  function JoinOptions(opts: seq<string>): string
  {
    Join(opts, ", ")
  }

  lemma NoCommaAfterWhitespace(w: string, a: string)
    requires AllWhitespace(w) && ',' !in a
    ensures ',' !in w + a
  {
    forall i | 0 <= i < |w + a| ensures (w + a)[i] != ',' {
      if i < |w| {
        assert IsWhitespace(w[i]);
      } else {
        assert (w + a)[i] == a[i - |w|];
      }
    }
  }

  /** One clean option behind white space parses to itself. */
  lemma ParseSingle(w: string, a: string)
    requires AllWhitespace(w) && CleanOption(a)
    ensures ParseOptions(w + a) == [a]
  {
    NoCommaAfterWhitespace(w, a);
    SplitWithoutSeparator(w + a, ',');
    TrimAfterWhitespace(w, a);
    assert CleanPieces([w + a]) == [Trim(w + a)] + CleanPieces([]);
  }

  /** Parsing, behind any white space, the joined text of clean options gives them back. */
  lemma {:induction false} ParseAfterWhitespace(w: string, opts: seq<string>)
    requires AllWhitespace(w) && AllClean(opts)
    ensures ParseOptions(w + JoinOptions(opts)) == opts
    decreases opts
  {
    if opts == [] {
      assert w + JoinOptions(opts) == w;
      SplitWithoutSeparator(w, ',');
      TrimProperties(w);
    } else if |opts| == 1 {
      assert w + JoinOptions(opts) == w + opts[0];
      ParseSingle(w, opts[0]);
    } else {
      var a, rest := opts[0], opts[1..];
      var tail := " " + JoinOptions(rest);
      assert JoinOptions(opts) == a + ", " + JoinOptions(rest);
      assert w + JoinOptions(opts) == (w + a) + [','] + tail;
      assert AllClean(rest) by {
        forall i | 0 <= i < |rest| ensures CleanOption(rest[i]) {
          assert rest[i] == opts[i + 1];
        }
      }
      calc {
        ParseOptions(w + JoinOptions(opts));
        CleanPieces(Split((w + a) + [','] + tail, ','));
        { NoCommaAfterWhitespace(w, a); SplitAtFirstSeparator(w + a, ',', tail); }
        CleanPieces([w + a] + Split(tail, ','));
        { CleanPiecesAppend([w + a], Split(tail, ',')); }
        CleanPieces([w + a]) + CleanPieces(Split(tail, ','));
        { NoCommaAfterWhitespace(w, a); SplitWithoutSeparator(w + a, ','); ParseSingle(w, a); }
        [a] + ParseOptions(tail);
        { assert AllWhitespace(" "); ParseAfterWhitespace(" ", rest); }
        [a] + rest;
      }
    }
  }

  /** Opening the editor and saving the text unchanged keeps clean options as they were. */
  lemma ParseJoinRoundTrip(opts: seq<string>)
    requires AllClean(opts)
    ensures ParseOptions(JoinOptions(opts)) == opts
  {
    assert "" + JoinOptions(opts) == JoinOptions(opts);
    ParseAfterWhitespace("", opts);
  }

  /** Re-parsing the shown text of parsed options changes nothing. */
  lemma ParseIsStable(s: string)
    ensures ParseOptions(JoinOptions(ParseOptions(s))) == ParseOptions(s)
  {
    ParseJoinRoundTrip(ParseOptions(s));
  }
}
