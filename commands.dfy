/**
 * The command layer: input normalisation and the pagination bookkeeping of
 * the `map` and `mapb` commands.  Characters are treated as ASCII: only
 * 'A'..'Z' are lowered and only the six ASCII white-space characters split
 * words.
 */
module Commands {
  import opened Common
  import opened Http
  import opened PokeApi

  const BaseUrl: string := "https://pokeapi.co/api/v2/"

  /** Space, tab, line feed, vertical tab, form feed, carriage return. */
  predicate IsSpace(c: char)
  {
    c == ' ' || c == '\t' || c == '\n' || c == '\r' || c == '\U{000B}' || c == '\U{000C}'
  }

  predicate IsUpper(c: char)
  {
    'A' <= c <= 'Z'
  }

  function LowerChar(c: char): (r: char)
    ensures !IsUpper(r)
    ensures IsSpace(r) <==> IsSpace(c)
    ensures !IsUpper(c) ==> r == c
  {
    if IsUpper(c) then (c as int + 32) as char else c
  }

  /** `strings.ToLower` on ASCII: every upper-case letter replaced by its lower-case form. */
  function ToLower(s: string): (r: string)
    ensures |r| == |s|
    ensures forall i :: 0 <= i < |s| ==> r[i] == LowerChar(s[i])
    ensures forall i :: 0 <= i < |r| ==> !IsUpper(r[i])
  {
    seq(|s|, i requires 0 <= i < |s| => LowerChar(s[i]))
  }

  /** A word: a non-empty run with no white space. */
  predicate IsWord(w: string)
  {
    w != [] && forall i :: 0 <= i < |w| ==> !IsSpace(w[i])
  }

  /** The length of the longest prefix of `s` holding no white space. */
  function WordLength(s: string): (n: nat)
    ensures n <= |s|
    ensures forall i :: 0 <= i < n ==> !IsSpace(s[i])
    ensures n < |s| ==> IsSpace(s[n])
  {
    if s == [] || IsSpace(s[0]) then 0 else 1 + WordLength(s[1..])
  }

  /**
   * `strings.Fields`: the maximal white-space-free runs of `s`, in order.
   * Every character of every word comes from `s`.
   */
  function Fields(s: string): (words: seq<string>)
    ensures forall j :: 0 <= j < |words| ==> IsWord(words[j])
    ensures forall j, i :: 0 <= j < |words| && 0 <= i < |words[j]| ==> words[j][i] in s
    decreases |s|
  {
    if s == [] then []
    else if IsSpace(s[0]) then Fields(s[1..])
    else
      var n := WordLength(s);
      [s[..n]] + Fields(s[n..])
  }

  /** `cleanInput`: lower-case the line and split it into words. */
  function CleanInput(text: string): (words: seq<string>)
    ensures forall j :: 0 <= j < |words| ==> IsWord(words[j])
    ensures forall j, i :: 0 <= j < |words| && 0 <= i < |words[j]| ==> !IsUpper(words[j][i])
  {
    var lowered := ToLower(text);
    var words := Fields(lowered);
    assert forall j, i :: 0 <= j < |words| && 0 <= i < |words[j]| ==> !IsUpper(words[j][i]) by {
      forall j, i | 0 <= j < |words| && 0 <= i < |words[j]|
        ensures !IsUpper(words[j][i])
      {
        var c := words[j][i];
        var k :| 0 <= k < |lowered| && lowered[k] == c;
      }
    }
    words
  }

  /** The words of `ws`, glued together with nothing between them. */
  function Concat(ws: seq<string>): string
  {
    if ws == [] then [] else ws[0] + Concat(ws[1..])
  }

  /** The words of `ws`, separated by single spaces. */
  function JoinSpaced(ws: seq<string>): string
  {
    if ws == [] then [] else if |ws| == 1 then ws[0] else ws[0] + " " + JoinSpaced(ws[1..])
  }

  /** `s` with every white-space character removed. */
  function StripSpace(s: string): string
  {
    if s == [] then [] else if IsSpace(s[0]) then StripSpace(s[1..]) else [s[0]] + StripSpace(s[1..])
  }

  lemma {:induction false} StripSpaceAppend(a: string, b: string)
    ensures StripSpace(a + b) == StripSpace(a) + StripSpace(b)
  {
    if a == [] {
      assert a + b == b;
    } else {
      assert (a + b)[0] == a[0] && (a + b)[1..] == a[1..] + b;
      StripSpaceAppend(a[1..], b);
    }
  }

  lemma {:induction false} StripSpaceOfWord(w: string)
    requires forall i :: 0 <= i < |w| ==> !IsSpace(w[i])
    ensures StripSpace(w) == w
  {
    if w != [] {
      StripSpaceOfWord(w[1..]);
    }
  }

  /** Gluing the words back together gives the input without its white space. */
  lemma {:induction false} FieldsConcat(s: string)
    ensures Concat(Fields(s)) == StripSpace(s)
    decreases |s|
  {
    if s == [] {
    } else if IsSpace(s[0]) {
      FieldsConcat(s[1..]);
    } else {
      var n := WordLength(s);
      assert s == s[..n] + s[n..];
      StripSpaceAppend(s[..n], s[n..]);
      StripSpaceOfWord(s[..n]);
      FieldsConcat(s[n..]);
      assert Fields(s)[1..] == Fields(s[n..]);
    }
  }

  /** The input holds no word exactly when it is empty or all white space. */
  lemma {:induction false} FieldsEmpty(s: string)
    ensures Fields(s) == [] <==> forall i :: 0 <= i < |s| ==> IsSpace(s[i])
    decreases |s|
  {
    if s != [] {
      FieldsEmpty(s[1..]);
      if IsSpace(s[0]) {
        assert forall i :: 1 <= i < |s| ==> s[i] == s[1..][i - 1];
      }
    }
  }

  /** A word followed by nothing, or by white space, is exactly the leading run. */
  lemma {:induction false} WordLengthOfWordThen(w: string, rest: string)
    requires IsWord(w)
    requires rest == [] || IsSpace(rest[0])
    ensures WordLength(w + rest) == |w|
    decreases |w|
  {
    if |w| > 1 {
      assert (w + rest)[1..] == w[1..] + rest;
      WordLengthOfWordThen(w[1..], rest);
    } else {
      assert (w + rest)[1..] == rest;
    }
  }

  /** Splitting words joined by single spaces gives back exactly those words. */
  lemma {:induction false} FieldsJoinSpaced(ws: seq<string>)
    requires forall j :: 0 <= j < |ws| ==> IsWord(ws[j])
    ensures Fields(JoinSpaced(ws)) == ws
    decreases |ws|
  {
    if |ws| == 1 {
      WordLengthOfWordThen(ws[0], []);
      assert ws[0] + [] == ws[0];
      assert ws[0][..|ws[0]|] == ws[0];
    } else if |ws| > 1 {
      var w, rest := ws[0], JoinSpaced(ws[1..]);
      var s := w + " " + rest;
      assert s == w + (" " + rest);
      WordLengthOfWordThen(w, " " + rest);
      assert s[..|w|] == w;
      assert s[|w|..] == " " + rest;
      assert (" " + rest)[1..] == rest;
      FieldsJoinSpaced(ws[1..]);
    }
  }

  /** Leading white space, however long, is skipped. */
  lemma {:induction false} FieldsSkipSpace(sp: string, s: string)
    requires forall i :: 0 <= i < |sp| ==> IsSpace(sp[i])
    ensures Fields(sp + s) == Fields(s)
    decreases |sp|
  {
    if sp == [] {
      assert sp + s == s;
    } else {
      assert (sp + s)[0] == sp[0] && (sp + s)[1..] == sp[1..] + s;
      FieldsSkipSpace(sp[1..], s);
    }
  }

  /**
   * A word ends at the first white space after it, however long the run of
   * white space is, and splitting goes on after that run.
   */
  lemma FieldsWordThenSpace(w: string, sp: string, s: string)
    requires IsWord(w)
    requires sp != [] && forall i :: 0 <= i < |sp| ==> IsSpace(sp[i])
    ensures Fields(w + sp + s) == [w] + Fields(s)
  {
    var t := w + sp + s;
    assert t == w + (sp + s);
    WordLengthOfWordThen(w, sp + s);
    assert t[..|w|] == w;
    assert t[|w|..] == sp + s;
    FieldsSkipSpace(sp, s);
  }

  /** A run of white space ending the input adds no word. */
  lemma FieldsWordAtEnd(w: string)
    requires IsWord(w)
    ensures Fields(w) == [w]
  {
    WordLengthOfWordThen(w, []);
    assert w + [] == w;
    assert w[..|w|] == w && w[|w|..] == [];
  }

  lemma {:induction false} ToLowerAppend(a: string, b: string)
    ensures ToLower(a + b) == ToLower(a) + ToLower(b)
  {
    assert forall i :: 0 <= i < |a + b| ==> (a + b)[i] == if i < |a| then a[i] else b[i - |a|];
  }

  /** Leading white space of a line is ignored by the cleaning. */
  lemma CleanInputSkipSpace(sp: string, text: string)
    requires forall i :: 0 <= i < |sp| ==> IsSpace(sp[i])
    ensures CleanInput(sp + text) == CleanInput(text)
  {
    ToLowerAppend(sp, text);
    FieldsSkipSpace(ToLower(sp), ToLower(text));
  }

  /**
   * A word followed by any non-empty run of white space becomes the lowered
   * word, and cleaning goes on after that run.
   */
  lemma CleanInputWordThenSpace(w: string, sp: string, text: string)
    requires IsWord(w)
    requires sp != [] && forall i :: 0 <= i < |sp| ==> IsSpace(sp[i])
    ensures CleanInput(w + sp + text) == [ToLower(w)] + CleanInput(text)
  {
    ToLowerAppend(w + sp, text);
    ToLowerAppend(w, sp);
    FieldsWordThenSpace(ToLower(w), ToLower(sp), ToLower(text));
  }

  /** The words of a cleaned line, glued together, are the lowered line without white space. */
  lemma CleanInputConcat(text: string)
    ensures Concat(CleanInput(text)) == StripSpace(ToLower(text))
  {
    FieldsConcat(ToLower(text));
  }

  /** A line yields no words exactly when it is empty or all white space. */
  lemma CleanInputEmpty(text: string)
    ensures CleanInput(text) == [] <==> forall i :: 0 <= i < |text| ==> IsSpace(text[i])
  {
    FieldsEmpty(ToLower(text));
  }

  /** Cleaning a line of lower-case words separated by single spaces gives back those words. */
  lemma CleanInputOfWords(ws: seq<string>)
    requires forall j :: 0 <= j < |ws| ==> IsWord(ws[j])
    requires forall j, i :: 0 <= j < |ws| && 0 <= i < |ws[j]| ==> !IsUpper(ws[j][i])
    ensures CleanInput(JoinSpaced(ws)) == ws
  {
    LowerOfLower(JoinSpaced(ws), ws);
    FieldsJoinSpaced(ws);
  }

  lemma {:induction false} LowerOfLower(s: string, ws: seq<string>)
    requires s == JoinSpaced(ws)
    requires forall j, i :: 0 <= j < |ws| && 0 <= i < |ws[j]| ==> !IsUpper(ws[j][i])
    ensures ToLower(s) == s
    decreases |ws|
  {
    if |ws| > 1 {
      LowerOfLower(JoinSpaced(ws[1..]), ws[1..]);
      var w, rest := ws[0], JoinSpaced(ws[1..]);
      assert forall i :: 0 <= i < |w| ==> s[i] == w[i];
      assert forall i :: |w| < i < |s| ==> s[i] == rest[i - |w| - 1];
    } else if |ws| == 1 {
      assert forall i :: 0 <= i < |s| ==> s[i] == ws[0][i];
    }
  }

  /**
   * The dispatch loop's `inputSlice[0]`, as written: it is defined only for a
   * line that holds at least one word.
   */
  function CommandWordAsWritten(line: string): (w: string)
    requires CleanInput(line) != []
    ensures IsWord(w)
    ensures w == CleanInput(line)[0]
  {
    CleanInput(line)[0]
  }

  /** A line of spaces, like an empty line, gives the dispatch loop nothing to index. */
  lemma BlankLineHasNoCommandWord()
    ensures CleanInput("") == []
    ensures CleanInput("   ") == []
  {
    CleanInputEmpty("   ");
  }

  /** The command word of a line, or None for a blank line. */
  function CommandWord(line: string): (w: Option<string>)
    ensures w.None? <==> forall i :: 0 <= i < |line| ==> IsSpace(line[i])
    ensures w.Some? ==> CleanInput(line) != [] && w.value == CommandWordAsWritten(line)
  {
    CleanInputEmpty(line);
    var words := CleanInput(line);
    if words == [] then None else Some(words[0])
  }

  /** The pagination links the command layer keeps between commands. */
  datatype Paging = Paging(next: string, previous: string)

  /**
   * Following one page: on success the links become the decoded page's own;
   * on any failure nothing changes, because every error return comes before
   * the assignments.
   */
  function TurnPage(p: Paging, o: Outcome, decode: Bytes -> Option<LocationArea>): (r: (Option<Error>, Paging))
    ensures r.0.None? <==> o.Delivered? && decode(o.data).Some?
    ensures r.0.None? ==> r.1 == Paging(decode(o.data).value.next, decode(o.data).value.previous)
    ensures r.0.Some? ==> r.1 == p
    ensures !o.Delivered? ==> r.0 == Some(FailureOf(o))
    ensures o.Delivered? && decode(o.data).None? ==> r.0 == Some(DecodeError)
  {
    match o
    case Delivered(_, data) =>
      (match decode(data)
       case Some(page) => (None, Paging(page.next, page.previous))
       case None => (Some(DecodeError), p))
    case _ => (Some(FailureOf(o)), p)
  }

  /** The locator `map` requests: the stored next link, or the first page when there is none. */
  function MapLocator(next: string): (url: string)
    ensures url != ""
    ensures next != "" ==> url == next
    ensures next == "" ==> url == BaseUrl + "location-area"
  {
    if next != "" then next else BaseUrl + "location-area"
  }

  /** The `Config` the REPL passes, by pointer, to every command. */
  class Config {
    var next: string
    var previous: string

    constructor ()
      ensures next == "" && previous == ""
    {
      next, previous := "", "";
    }

    function Links(): Paging
      reads this
    {
      Paging(next, previous)
    }
  }

  /** Request `url`, decode the page, and on success store its links in `cfg`. */
  method FollowPage(cfg: Config, url: string, fetch: string -> Outcome, decode: Bytes -> Option<LocationArea>)
    returns (err: Option<Error>)
    modifies cfg
    ensures (err, cfg.Links()) == TurnPage(old(cfg.Links()), fetch(url), decode)
  {
    var outcome := fetch(url);
    if !outcome.Delivered? {
      return Some(FailureOf(outcome));
    }
    var decoded := decode(outcome.data);
    if decoded.None? {
      return Some(DecodeError);
    }
    cfg.next := decoded.value.next;
    cfg.previous := decoded.value.previous;
    err := None;
  }

  /** `commandMap`: follow the next link, or start at the first page. */
  method CommandMap(cfg: Config, fetch: string -> Outcome, decode: Bytes -> Option<LocationArea>)
    returns (err: Option<Error>, url: string)
    modifies cfg
    ensures url == MapLocator(old(cfg.next))
    ensures (err, cfg.Links()) == TurnPage(old(cfg.Links()), fetch(url), decode)
  {
    url := MapLocator(cfg.next);
    err := FollowPage(cfg, url, fetch, decode);
  }

  /**
   * `commandMapb`: follow the previous link.  On the first page that link is
   * empty; the command only prints a notice and still requests it.
   */
  method CommandMapb(cfg: Config, fetch: string -> Outcome, decode: Bytes -> Option<LocationArea>)
    returns (err: Option<Error>, url: string)
    modifies cfg
    ensures url == old(cfg.previous)
    ensures (err, cfg.Links()) == TurnPage(old(cfg.Links()), fetch(url), decode)
  {
    url := cfg.previous;
    err := FollowPage(cfg, url, fetch, decode);
  }
}
