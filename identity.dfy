/**
 * `stable_job_key` (job_agent/core/utils.py:4-15): the identity of a posting.
 *
 * The URL is parsed and reassembled without its fragment; if parsing raises,
 * the raw URL is used as it is. The result is hashed with SHA-256 and the
 * first 32 hexadecimal digits are the key.
 *
 * The URL library and the hash are not modelled: `UrlLib` carries them as
 * parameters. Reassembling a parsed URL without its fragment is modelled as
 * cutting the text at its first '#'.
 */
module Identity {

  predicate IsHexDigit(c: char) {
    '0' <= c <= '9' || 'a' <= c <= 'f'
  }

  /** Lower-case hexadecimal text, as `hexdigest()` writes it. */
  predicate IsLowerHex(s: string) {
    forall i :: 0 <= i < |s| ==> IsHexDigit(s[i])
  }

  const ZeroDigest: string := seq(64, _ => '0')

  /** `hashlib.sha256(text.encode("utf-8")).hexdigest()`: any function that yields 64 lower-case
      hexadecimal digits. */
  type Sha256Hex = f: string -> string | forall s :: |f(s)| == 64 && IsLowerHex(f(s))
    witness (s: string) => ZeroDigest

  /** The foreign calls: the hash, and which inputs make `urlparse` raise. */
  datatype UrlLib = UrlLib(sha256: Sha256Hex, parseFails: string -> bool)

  /** The position of the first '#', or the length when there is none. */
  function FragmentStart(url: string): (i: nat)
    ensures i <= |url|
    ensures forall j :: 0 <= j < i ==> url[j] != '#'
    ensures i < |url| ==> url[i] == '#'
  {
    if url == [] || url[0] == '#' then 0 else 1 + FragmentStart(url[1..])
  }

  /** What `urlunparse` rebuilds: scheme, network location, path, parameters and query. */
  function WithoutFragment(url: string): string {
    url[..FragmentStart(url)]
  }

  /** The part that is dropped: empty, or '#' and everything after it. */
  function Fragment(url: string): string {
    url[FragmentStart(url)..]
  }

  /** The text that is hashed (utils.py:9-13). */
  function HashedText(url: string, lib: UrlLib): string {
    if lib.parseFails(url) then url else WithoutFragment(url)
  }

  /** `stable_job_key` (utils.py:4-15). */
  function StableJobKey(url: string, lib: UrlLib): (key: string)
    ensures |key| == 32 && IsLowerHex(key)
  {
    lib.sha256(HashedText(url, lib))[..32]
  }

  /** A URL splits into the part that is kept and the fragment: nothing else is dropped, the kept
      part holds no '#', and the fragment is empty or starts with '#'. */
  lemma SplitAtFragment(url: string)
    ensures WithoutFragment(url) + Fragment(url) == url
    ensures '#' !in WithoutFragment(url)
    ensures Fragment(url) == [] || Fragment(url)[0] == '#'
  {
    assert url[..FragmentStart(url)] + url[FragmentStart(url)..] == url;
  }

  /** A URL without a fragment is hashed whole. */
  lemma NoFragmentKeptWhole(url: string, lib: UrlLib)
    requires '#' !in url
    ensures HashedText(url, lib) == url
  {
    assert FragmentStart(url) == |url|;
  }

  /** Cutting `base + "#" + fragment` at its first '#' gives back `base`. */
  lemma {:induction false} CutAfterBase(base: string, fragment: string)
    requires '#' !in base
    ensures WithoutFragment(base + "#" + fragment) == base
  {
    var url := base + "#" + fragment;
    assert url[|base|] == '#';
    assert forall j :: 0 <= j < |base| ==> url[j] == base[j];
  }

  /** Adding or changing the fragment does not change the key, as long as both URLs parse. */
  lemma FragmentInsensitive(base: string, fragment: string, lib: UrlLib)
    requires '#' !in base
    requires !lib.parseFails(base) && !lib.parseFails(base + "#" + fragment)
    ensures StableJobKey(base + "#" + fragment, lib) == StableJobKey(base, lib)
  {
    CutAfterBase(base, fragment);
    NoFragmentKeptWhole(base, lib);
  }

  /** Two URLs that agree up to their fragments get the same key when both parse. */
  lemma SameKeyUpToFragment(u: string, v: string, lib: UrlLib)
    requires !lib.parseFails(u) && !lib.parseFails(v)
    requires WithoutFragment(u) == WithoutFragment(v)
    ensures StableJobKey(u, lib) == StableJobKey(v, lib)
  {
  }

  /** When parsing raises, the raw URL, fragment included, is hashed: the key still exists and
      differs from the parsed case only in what is hashed. */
  lemma ParseFailureHashesRaw(url: string, lib: UrlLib)
    requires lib.parseFails(url)
    ensures StableJobKey(url, lib) == lib.sha256(url)[..32]
  {
  }
}
