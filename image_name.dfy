/**
 * The image service's identifiers: the names it generates for uploads, and the
 * `DOWNLOAD_FILE` pattern `^/download/(?P<filename>\w{20})?$` that guards downloads.
 */
module ImageName {

  import opened Wrappers
  import opened Http

  /** Number of characters taken from the random alphanumeric stream. */
  const NAME_LENGTH: nat := 20

  /**
   * The alphabet of `rand::distributions::Alphanumeric`, indexed by the value it samples:
   * "ABCDEFGHIJKLMNOPQRSTUVWXYZabcdefghijklmnopqrstuvwxyz0123456789".
   */
  const ALPHANUMERIC: string := CharRange('A', 26) + CharRange('a', 26) + CharRange('0', 10)

  /** The `n` consecutive characters starting at `first`. */
  function CharRange(first: char, n: nat): (r: string)
    requires (first as int) + n <= 0xD800
    ensures |r| == n
    ensures forall i :: 0 <= i < n ==> r[i] == ((first as int) + i) as char
  {
    if n == 0 then [] else CharRange(first, n - 1) + [((first as int) + n - 1) as char]
  }

  predicate IsAsciiAlphanumeric(c: char) {
    ('A' <= c <= 'Z') || ('a' <= c <= 'z') || ('0' <= c <= '9')
  }

  /** The shape of every name the upload handler hands out. */
  predicate IsGeneratedName(s: string) {
    |s| == NAME_LENGTH && forall i :: 0 <= i < |s| ==> IsAsciiAlphanumeric(s[i])
  }

  /** A character the distribution can produce is exactly an ASCII letter or digit. */
  lemma AlphabetIsAsciiAlphanumeric(c: char)
    ensures c in ALPHANUMERIC <==> IsAsciiAlphanumeric(c)
  {
    assert |ALPHANUMERIC| == 62;
    if IsAsciiAlphanumeric(c) {
      var k := if 'A' <= c <= 'Z' then (c as int) - ('A' as int)
               else if 'a' <= c <= 'z' then 26 + (c as int) - ('a' as int)
               else 52 + (c as int) - ('0' as int);
      assert ALPHANUMERIC[k] == c;
    }
  }

  /**
   * `thread_rng().sample_iter(&Alphanumeric).take(20).collect()`, with the sampled
   * alphabet positions given as `picks` instead of drawn from the thread's generator.
   */
  function GenerateName(picks: seq<nat>): (name: string)
    requires |picks| >= NAME_LENGTH
    requires forall i :: 0 <= i < |picks| ==> picks[i] < |ALPHANUMERIC|
    ensures IsGeneratedName(name)
    ensures forall i :: 0 <= i < NAME_LENGTH ==> name[i] == ALPHANUMERIC[picks[i]]
  {
    var name := TakeFromAlphabet(picks, NAME_LENGTH);
    forall i | 0 <= i < |name| ensures IsAsciiAlphanumeric(name[i]) {
      AlphabetIsAsciiAlphanumeric(name[i]);
    }
    name
  }

  /** The first `n` sampled characters, in sampling order. */
  function TakeFromAlphabet(picks: seq<nat>, n: nat): (s: string)
    requires n <= |picks|
    requires forall i :: 0 <= i < |picks| ==> picks[i] < |ALPHANUMERIC|
    ensures |s| == n
    ensures forall i :: 0 <= i < n ==> s[i] == ALPHANUMERIC[picks[i]]
  {
    if n == 0 then [] else TakeFromAlphabet(picks, n - 1) + [ALPHANUMERIC[picks[n - 1]]]
  }

  /**
   * The regex crate's `\w` in its default Unicode mode: Alphabetic, marks, decimal
   * digits, connector punctuation and join controls. The ASCII part is exact
   * (`[0-9A-Za-z_]`); of the rest only the Latin-1 letters are listed here.
   */
  predicate IsWordChar(c: char) {
    IsAsciiAlphanumeric(c) || c == '_' || IsLatin1WordChar(c)
  }

  /** Word characters between U+0080 and U+00FF: ª, µ, º and the accented letters. */
  predicate IsLatin1WordChar(c: char) {
    c == '\U{AA}' || c == '\U{B5}' || c == '\U{BA}'
    || ('\U{C0}' <= c <= '\U{D6}') || ('\U{D8}' <= c <= '\U{F6}') || ('\U{F8}' <= c <= '\U{FF}')
  }

  predicate AllWordChars(s: string) {
    forall i :: 0 <= i < |s| ==> IsWordChar(s[i])
  }

  /** The literal part of the pattern, after `^`. */
  const DOWNLOAD_PREFIX: string := "/download/"

  /** The captures of one match: the optional group `filename`. */
  datatype Captures = Captures(filename: Option<string>)

  /** `path` is the prefix followed by exactly twenty word characters, captured as `name`. */
  predicate MatchesWithName(path: string, name: string) {
    path == DOWNLOAD_PREFIX + name && |name| == NAME_LENGTH && AllWordChars(name)
  }

  /** The language of `^/download/(?P<filename>\w{20})?$`: the group is present or absent, both ends anchored. */
  ghost predicate InDownloadLanguage(path: string) {
    path == DOWNLOAD_PREFIX || exists name :: MatchesWithName(path, name)
  }

  /** `DOWNLOAD_FILE.captures(path)`. */
  function DownloadCaptures(path: string): (m: Option<Captures>)
    ensures m.Some? <==> InDownloadLanguage(path)
    ensures m == Some(Captures(None)) <==> path == DOWNLOAD_PREFIX
    ensures m.Some? && m.value.filename.Some? ==> MatchesWithName(path, m.value.filename.value)
  {
    if !StartsWith(path, DOWNLOAD_PREFIX) then None
    else
      var rest := path[|DOWNLOAD_PREFIX|..];
      assert path == DOWNLOAD_PREFIX + rest;
      if rest == [] then Some(Captures(None))
      else if |rest| == NAME_LENGTH && AllWordChars(rest) then
        assert MatchesWithName(path, rest);
        Some(Captures(Some(rest)))
      else
        assert forall name :: MatchesWithName(path, name) ==> name == rest;
        None
  }

  /** Every generated name passes the download check and is captured whole. */
  lemma GeneratedNameIsCaptured(name: string)
    requires IsGeneratedName(name)
    ensures DownloadCaptures(DOWNLOAD_PREFIX + name) == Some(Captures(Some(name)))
  {
  }

  /**
   * The check is wider than the generator's alphabet: twenty underscores, or a name
   * with a Latin-1 letter, pass it although no upload can produce them.
   */
  lemma CheckAcceptsNamesNeverGenerated()
    ensures var n := "____________________"; !IsGeneratedName(n) && DownloadCaptures(DOWNLOAD_PREFIX + n) == Some(Captures(Some(n)))
    ensures var n := "\U{E9}AAAAAAAAAAAAAAAAAAA"; !IsGeneratedName(n) && DownloadCaptures(DOWNLOAD_PREFIX + n) == Some(Captures(Some(n)))
  {
    var n := "____________________";
    assert !IsAsciiAlphanumeric(n[0]);
    assert MatchesWithName(DOWNLOAD_PREFIX + n, n);
    assert (DOWNLOAD_PREFIX + n)[|DOWNLOAD_PREFIX|..] == n;
    var e := "\U{E9}AAAAAAAAAAAAAAAAAAA";
    assert !IsAsciiAlphanumeric(e[0]);
    assert MatchesWithName(DOWNLOAD_PREFIX + e, e);
    assert (DOWNLOAD_PREFIX + e)[|DOWNLOAD_PREFIX|..] == e;
  }

  /** A captured name is twenty characters with no path separator and no dot, so it is never `.`, `..` or a path. */
  lemma CapturedNameIsPlain(path: string)
    requires DownloadCaptures(path).Some? && DownloadCaptures(path).value.filename.Some?
    ensures var name := DownloadCaptures(path).value.filename.value;
      |name| == NAME_LENGTH && '/' !in name && '.' !in name && '\\' !in name && '\0' !in name
  {
  }

  /** Concrete rejections: too short, too long, a separator or a dot inside, the bare `/download`. */
  lemma MalformedPathsRejected()
    ensures DownloadCaptures("/download") == None
    ensures DownloadCaptures("/download/short") == None
    ensures DownloadCaptures("/download/AAAAAAAAAAAAAAAAAAAAA") == None
    ensures DownloadCaptures("/download/AAAAAAAAA/AAAAAAAAAA") == None
    ensures DownloadCaptures("/download/../AAAAAAAAAAAAAAAAA") == None
  {
    assert !IsWordChar('/');
    assert "/download/AAAAAAAAA/AAAAAAAAAA"[|DOWNLOAD_PREFIX|..][9] == '/';
    assert "/download/../AAAAAAAAAAAAAAAAA"[|DOWNLOAD_PREFIX|..][0] == '.';
  }
}
