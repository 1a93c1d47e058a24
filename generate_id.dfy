/**
 * Prefixed ids: `{prefix}_{suffix}` where the suffix is a 21-character draw
 * from the 62 letters and digits. The draw itself is random and comes in as a
 * parameter of type `NanoId`.
 */
module GenerateId {
  const SuffixLength := 21

  /** The generator's alphabet: the ten digits and the 26 upper- and lower-case ASCII letters. */
  predicate InAlphabet(c: char) {
    '0' <= c <= '9' || 'A' <= c <= 'Z' || 'a' <= c <= 'z'
  }

  predicate IsSuffix(s: string) {
    |s| == SuffixLength && forall i :: 0 <= i < |s| ==> InAlphabet(s[i])
  }

  /** What `nanoid()` returns. */
  type NanoId = s: string | IsSuffix(s) witness "000000000000000000000"

  /** The three prefixes of `IdPrefixes`. */
  datatype IdPrefix = McpServer | Category | McpServerCategory

  function PrefixText(p: IdPrefix): (s: string)
    ensures |s| == 3
  {
    match p
    case McpServer => "mcp"
    case Category => "ctg"
    case McpServerCategory => "msc"
  }

  /** `generateId(prefix)` given the suffix the generator drew. */
  function MakeId(prefix: string, suffix: NanoId): (id: string)
    ensures |id| == |prefix| + 1 + SuffixLength
  {
    prefix + "_" + suffix
  }

  /** The prefix and the suffix an id was made from, read back from its layout. */
  function SplitId(id: string): (parts: (string, string))
    requires |id| >= 1 + SuffixLength
  {
    (id[..|id| - 1 - SuffixLength], id[|id| - SuffixLength..])
  }

  /** An id splits back into the prefix and the suffix it was made from; the separator sits between them. */
  lemma {:induction false} SplitMakeId(prefix: string, suffix: NanoId)
    ensures var id := MakeId(prefix, suffix);
            SplitId(id) == (prefix, suffix) && id[|prefix|] == '_'
            && forall i :: |prefix| < i < |id| ==> InAlphabet(id[i])
  {
    var id := MakeId(prefix, suffix);
    assert id[..|prefix|] == prefix;
    assert id[|prefix| + 1..] == suffix;
    forall i | |prefix| < i < |id|
      ensures InAlphabet(id[i])
    {
      assert id[i] == suffix[i - |prefix| - 1];
    }
  }

  /** Ids made with different `IdPrefixes` values never coincide, whatever the draws. */
  lemma {:induction false} PrefixesSeparateIds(p: IdPrefix, q: IdPrefix, s: NanoId, t: NanoId)
    requires p != q
    ensures MakeId(PrefixText(p), s) != MakeId(PrefixText(q), t)
  {
    SplitMakeId(PrefixText(p), s);
    SplitMakeId(PrefixText(q), t);
  }
}
