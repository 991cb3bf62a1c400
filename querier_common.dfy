/**
 * What the ClickHouse query engine's translators share: the entries of the
 * tag and metric tables, the foreign calls (fmt.Sprintf with a translator
 * template and the address parsers of the net, netaddr and common
 * packages), and the naming rules of label., tag. and attribute. columns.
 */
module QuerierCommon {
  import opened Wrappers
  import opened Text

  /** A tag of the tag table: its select template and its two where templates. */
  datatype TagItem = TagItem(tagTranslator: string, whereTranslator: string, whereRegexpTranslator: string)

  /** The zero TagItem Go reads when a lookup misses. */
  const ZERO_TAG := TagItem("", "", "")

  /** A metric of the metric tables: the ClickHouse field it reads. */
  datatype Metric = Metric(dbField: string)

  /** An argument of fmt.Sprintf. */
  datatype Arg = S(s: string) | I(i: int)

  /** net.ParseIP followed by To4 and IpToUint32: not an address, an IPv4 address as a number, or an IPv6 address. */
  datatype IPParse = NotIP | IPv4(n: nat) | IPv6

  /** The first and last address of a masked CIDR prefix, as text. */
  datatype IPRange = IPRange(first: string, last: string)

  /**
   * The foreign functions, with the query's database and table fixed:
   * tag.GetTag(name, db, table, "default"), metrics.GetMetrics(name, db, table),
   * fmt.Sprintf, net.ParseMAC followed by Mac2Uint64, net.ParseIP,
   * netaddr.ParseIPPrefix followed by Masked().Range(), and
   * common.IPFilterStringToHex.
   */
  datatype Lib = Lib(
    getTag: string -> Option<TagItem>,
    getMetrics: string -> Option<Metric>,
    sprintf: (string, seq<Arg>) -> string,
    parseMAC: string -> Result<nat>,
    parseIP: string -> IPParse,
    parsePrefix: string -> Result<IPRange>,
    ipToHex: string -> string)

  /** The table tag that holds a label column: k8s_label_0 / k8s_label_1 by side suffix, else k8s_label. */
  function LabelTagName(name: string): string
  {
    if HasSuffix(name, "_0") then "k8s_label_0"
    else if HasSuffix(name, "_1") then "k8s_label_1"
    else "k8s_label"
  }

  /** The label key of a label. column: the name without its _0 / _1 suffix and its "label." prefix. */
  function LabelKey(name: string): string
  {
    TrimPrefix(TrimSuffix(TrimSuffix(name, "_0"), "_1"), "label.")
  }

  /** The table tag of an external column: "tag" for tag., "attribute" otherwise. */
  function ExternalTagName(name: string): string
  {
    if HasPrefix(name, "tag.") then "tag" else "attribute"
  }

  /** The key of an external column: the name without its "tag." or "attribute." prefix. */
  function ExternalKey(name: string): string
  {
    TrimPrefix(TrimPrefix(name, "tag."), "attribute.")
  }

  lemma SuffixOfConcat(x: string, s: string)
    ensures HasSuffix(x + s, s) && (x + s)[..|x + s| - |s|] == x
  {
    assert (x + s)[|x + s| - |s|..] == s;
  }

  /**
   * A side-suffixed label column label.X_0 (or _1) reads table tag
   * k8s_label_0 (k8s_label_1) with key X, and label.X reads k8s_label with
   * key X, provided X itself does not end in a side suffix.
   */
  lemma {:induction false} LabelNaming(x: string)
    requires !HasSuffix(x, "_0") && !HasSuffix(x, "_1")
    ensures LabelTagName("label." + x + "_0") == "k8s_label_0" && LabelKey("label." + x + "_0") == x
    ensures LabelTagName("label." + x + "_1") == "k8s_label_1" && LabelKey("label." + x + "_1") == x
    ensures LabelTagName("label." + x) == "k8s_label" && LabelKey("label." + x) == x
  {
    var p := "label." + x;
    SuffixOfConcat(p, "_0");
    SuffixOfConcat(p, "_1");
    assert !HasSuffix(p, "_0") && !HasSuffix(p, "_1") by {
      if |x| >= 2 {
        assert p[|p| - 2..] == x[|x| - 2..];
      } else {
        assert p[|p| - 2] == (if |x| == 0 then 'l' else '.');
      }
    }
    assert !HasSuffix(p + "_1", "_0") by {
      assert (p + "_1")[|p| ..] == "_1";
    }
    assert HasPrefix(p, "label.") && p[6..] == x;
  }

  /** An external column tag.K or attribute.K reads table tag "tag" or "attribute" with key K. */
  lemma ExternalNaming(k: string)
    requires !HasPrefix(k, "attribute.")
    ensures ExternalTagName("tag." + k) == "tag" && ExternalKey("tag." + k) == k
    ensures ExternalTagName("attribute." + k) == "attribute" && ExternalKey("attribute." + k) == k
  {
    assert HasPrefix("tag." + k, "tag.") && ("tag." + k)[4..] == k;
    assert HasPrefix("attribute." + k, "attribute.") && ("attribute." + k)[10..] == k;
    assert !HasPrefix("attribute." + k, "tag.") by {
      assert ("attribute." + k)[..4] == "attr";
    }
  }
}
