/** The result-key pattern of src/pipeline.py: `re.match` with
    `^node_[\w-]+_result$`. A key is `node_`, then one or more word
    characters or hyphens, then `_result`; `$` also accepts the key
    followed by one final newline. Word characters are the ASCII ones. */
module ResultRefs {

  predicate IsWordChar(c: char) {
    ('a' <= c <= 'z') || ('A' <= c <= 'Z') || ('0' <= c <= '9') || c == '_'
  }

  /** `[\w-]` */
  predicate IsIdChar(c: char) {
    IsWordChar(c) || c == '-'
  }

  const Prefix: string := "node_"
  const Suffix: string := "_result"

  /** `t` is the prefix, a non-empty run of id characters and the suffix. */
  predicate Shaped(t: string) {
    && |t| > |Prefix| + |Suffix|
    && t[..|Prefix|] == Prefix
    && t[|t| - |Suffix|..] == Suffix
    && forall i :: |Prefix| <= i < |t| - |Suffix| ==> IsIdChar(t[i])
  }

  /** The whole pattern, anchored at both ends. */
  predicate IsResultRef(s: string) {
    Shaped(s) || (|s| > 0 && s[|s| - 1] == '\n' && Shaped(s[..|s| - 1]))
  }

  /** `f"node_{id}_result"` */
  function ResultKey(id: string): (k: string)
    ensures |k| == |id| + |Prefix| + |Suffix|
    ensures k[..|Prefix|] == Prefix && k[|k| - |Suffix|..] == Suffix
    ensures k[|Prefix|..|k| - |Suffix|] == id
  {
    Prefix + id + Suffix
  }

  /** A node's own result key matches the pattern exactly when its id is a
      non-empty run of word characters and hyphens (as a uuid4 string is). */
  lemma ResultKeyIsRef(id: string)
    ensures IsResultRef(ResultKey(id)) <==> id != [] && forall i :: 0 <= i < |id| ==> IsIdChar(id[i])
  {
    var k := ResultKey(id);
    assert forall i :: |Prefix| <= i < |k| - |Suffix| ==> k[i] == id[i - |Prefix|];
    assert k[|k| - 1] == 't';
  }

  /** Distinct ids give distinct result keys. */
  lemma ResultKeyInjective(a: string, b: string)
    requires ResultKey(a) == ResultKey(b)
    ensures a == b
  {
    var k := ResultKey(a);
    assert a == k[|Prefix|..|k| - |Suffix|];
  }

  /** Keys the pattern accepts, including one with a final newline. */
  lemma PatternAccepts()
    ensures IsResultRef("node_1_result")
    ensures IsResultRef("node_a-b_c_result")
    ensures IsResultRef("node_x_result\n")
  {
    assert "node_1_result"[..5] == Prefix;
    assert "node_1_result"[6..] == Suffix;
    assert "node_a-b_c_result"[..5] == Prefix;
    assert "node_a-b_c_result"[10..] == Suffix;
    assert "node_x_result\n"[..13] == "node_x_result";
    assert "node_x_result"[..5] == Prefix;
    assert "node_x_result"[6..] == Suffix;
  }

  /** Look-alikes the pattern rejects: an empty id, a space in the id,
      text before `node_`, and more than one trailing newline. */
  lemma PatternRejects()
    ensures !IsResultRef("node__result")
    ensures !IsResultRef("node_a b_result")
    ensures !IsResultRef("xnode_a_result")
    ensures !IsResultRef("node_a_result\n\n")
  {
    assert "node_a b_result"[6] == ' ';
    assert "xnode_a_result"[0] == 'x';
    assert "node_a_result\n\n"[..14][13] == '\n';
  }
}
