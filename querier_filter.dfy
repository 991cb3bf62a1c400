/**
 * The WHERE clause translation of the ClickHouse query engine: a
 * comparison `tag op value` of the query language becomes a ClickHouse
 * filter through the tag's where translators (fmt templates), with
 * special rules for MAC and tap-port values, label./tag./attribute.
 * columns, ip_version, is_internet, _id and IP / CIDR values, and a
 * `not(...)` wrapping of the negated operators.
 *
 * A translated node is modelled by its text; the tag table, fmt.Sprintf and
 * the address parsers are the foreign functions of `Lib`.
 */
module QuerierFilter {
  import opened Wrappers
  import opened Text
  import opened QuerierCommon

  const MAC_TAGS: set<string> := {"mac_0", "mac_1", "tunnel_tx_mac_0", "tunnel_tx_mac_1", "tunnel_rx_mac_0", "tunnel_rx_mac_1"}
  const IS_INTERNET_TAGS: set<string> := {"is_internet", "is_internet_0", "is_internet_1"}
  const IP_TAGS: set<string> := {"ip", "ip_0", "ip_1", "tunnel_tx_ip_0", "tunnel_tx_ip_1", "tunnel_rx_ip_0", "tunnel_rx_ip_1"}
  const POD_SERVICE_ID_TAGS: set<string> := {"pod_service_id", "pod_service_id_0", "pod_service_id_1"}
  const POD_INGRESS_TAGS: set<string> := {"pod_ingress_id", "pod_ingress_id_0", "pod_ingress_id_1", "pod_ingress",
    "pod_ingress_0", "pod_ingress_1", "pod_service", "pod_service_0", "pod_service_1"}

  /* ---------------------------------------------------------------- values */

  predicate IsLike(op: string)
  {
    ToLower(op) == "like" || ToLower(op) == "not like"
  }

  /** The value after the wildcard rewrite: under LIKE and NOT LIKE every '*' becomes '%'. */
  function LikeValue(op: string, value: string): (r: string)
    ensures IsLike(op) ==> |r| == |value| && '*' !in r
    ensures IsLike(op) ==> forall i :: 0 <= i < |value| ==> r[i] == (if value[i] == '*' then '%' else value[i])
    ensures !IsLike(op) ==> r == value
  {
    if IsLike(op) then ReplaceChar(value, '*', '%') else value
  }

  /** The comma-separated items of a value, its surrounding parentheses trimmed. */
  function ListItems(value: string): (items: seq<string>)
    ensures |items| >= 1
  {
    Split(TrimRightChar(TrimLeftChar(value, '('), ')'), ',')
  }

  /** A list as the operator takes it: parenthesised for in and not in. */
  function ListFor(op: string, list: string): string
  {
    if op == "in" || op == "not in" then "(" + list + ")" else list
  }

  function Not(s: string): string
  {
    "not(" + s + ")"
  }

  /** fmt.Sprintf("'%v'", n). */
  function Quoted(n: nat): string
  {
    "'" + NatToString(n) + "'"
  }

  /* ----------------------------------------------------- item-by-item loops */

  /**
   * The loops that render each item of a list and stop at the first item
   * that fails: MAC values, tap-port values, CIDR ranges and _id values
   * (as the source reads them, and as intended).
   */
  datatype ItemKind =
    | MacItem
    | TapPortItem(whole: string)
    | CidrItem(translator: string, ipOp: string)
    | IdItemAsWritten(translator: string, op: string, whole: string)
    | IdItem(translator: string, op: string, whole: string)

  /** The CIDR filter of one range: an upper or lower bound for >= and <=, both bounds otherwise. */
  function CidrFilter(lib: Lib, tr: string, ipOp: string, range: IPRange): string
  {
    var minIP := lib.ipToHex("'" + range.first + "'");
    var maxIP := lib.ipToHex("'" + range.last + "'");
    if ipOp == ">=" then lib.sprintf(tr, [S(ipOp), S(maxIP)])
    else if ipOp == "<=" then lib.sprintf(tr, [S(ipOp), S(minIP)])
    else "(" + lib.sprintf(tr, [S(">="), S(minIP)]) + " AND " + lib.sprintf(tr, [S("<="), S(maxIP)]) + ")"
  }

  /** One _id filter: the text parsed as an integer; the whole value and the integer go to the translator. */
  function IdFilterOf(lib: Lib, tr: string, op: string, whole: string, text: string): Result<string>
  {
    var n := ParseInt64(TrimChar(text, '\''));
    if n.Err? then Err(n.error) else Ok("(" + lib.sprintf(tr, [S(op), S(whole), I(n.value)]) + ")")
  }

  /** One item of a list loop, rendered or the error that ends the loop. */
  function RenderItem(lib: Lib, kind: ItemKind, item: string): Result<string>
  {
    match kind
    case MacItem =>
      var mac := lib.parseMAC(TrimChar(item, '\''));
      if mac.Err? then Err(mac.error) else Ok(Quoted(mac.value))
    case TapPortItem(whole) =>
      var v := TrimChar(item, '\'');
      (match lib.parseIP(v)
       case IPv4(n) => Ok(Quoted(n))
       case IPv6 => Err("invalid ipv4 mac: " + v)
       case NotIP =>
         var mac := lib.parseMAC("00:00:" + v);
         if mac.Err? then Ok("'" + whole + "'") else Ok(Quoted(mac.value)))
    case CidrItem(tr, ipOp) =>
      var prefix := lib.parsePrefix(TrimChar(item, '\''));
      if prefix.Err? then Err(prefix.error) else Ok(CidrFilter(lib, tr, ipOp, prefix.value))
    case IdItemAsWritten(tr, op, whole) => IdFilterOf(lib, tr, op, whole, whole)
    case IdItem(tr, op, whole) => IdFilterOf(lib, tr, op, whole, item)
  }

  /** The renderer of a list loop. */
  function Renderer(lib: Lib, kind: ItemKind): string -> Result<string>
  {
    x => RenderItem(lib, kind, x)
  }

  /** `acc` followed by the rendered `items`, or the error of the first item that fails. */
  function RenderAll(render: string -> Result<string>, acc: seq<string>, items: seq<string>): Result<seq<string>>
    decreases |items|
  {
    if items == [] then Ok(acc)
    else
      var r := render(items[0]);
      if r.Err? then Err(r.error) else RenderAll(render, acc + [r.value], items[1..])
  }

  /**
   * A list loop succeeds iff every item renders, and then yields the items'
   * renderings in order after `acc`; otherwise its error is that of the
   * first item that fails.
   */
  lemma {:induction false} RenderAllSpec(render: string -> Result<string>, acc: seq<string>, items: seq<string>)
    ensures var r := RenderAll(render, acc, items);
      (r.Ok? <==> forall i :: 0 <= i < |items| ==> render(items[i]).Ok?) &&
      (r.Ok? ==> (|r.value| == |acc| + |items| && r.value[..|acc|] == acc &&
                  forall i :: 0 <= i < |items| ==> r.value[|acc| + i] == render(items[i]).value)) &&
      (r.Err? ==> exists j :: (0 <= j < |items| && render(items[j]) == Err(r.error) &&
                               forall i :: 0 <= i < j ==> render(items[i]).Ok?))
    decreases |items|
  {
    if items != [] {
      var r0 := render(items[0]);
      if r0.Ok? {
        RenderAllSpec(render, acc + [r0.value], items[1..]);
        var r := RenderAll(render, acc, items);
        if r.Ok? {
          assert forall i :: 1 <= i < |items| ==> items[i] == items[1..][i - 1];
          assert r.value[..|acc|] == (r.value[..|acc| + 1])[..|acc|];
        } else {
          var j :| 0 <= j < |items[1..]| && render(items[1..][j]) == Err(r.error) &&
            forall i :: 0 <= i < j ==> render(items[1..][i]).Ok?;
          assert render(items[j + 1]) == Err(r.error);
          assert forall i :: 0 <= i < j + 1 ==> render(items[i]).Ok? by {
            forall i | 0 <= i < j + 1
              ensures render(items[i]).Ok?
            {
              if i > 0 {
                assert items[i] == items[1..][i - 1];
              }
            }
          }
        }
      }
    }
  }

  /** Two loops whose items render alike yield the same result. */
  lemma {:induction false} RenderAllAlike(f: string -> Result<string>, g: string -> Result<string>,
                                          acc: seq<string>, items: seq<string>)
    requires forall x :: f(x) == g(x)
    ensures RenderAll(f, acc, items) == RenderAll(g, acc, items)
    decreases |items|
  {
    if items != [] {
      var r := f(items[0]);
      if r.Ok? {
        RenderAllAlike(f, g, acc + [r.value], items[1..]);
      }
    }
  }

  /** The loop over a list's items. */
  method RenderItems(render: string -> Result<string>, items: seq<string>) returns (r: Result<seq<string>>)
    ensures r == RenderAll(render, [], items)
  {
    var acc: seq<string> := [];
    var k := 0;
    while k < |items|
      invariant 0 <= k <= |items|
      invariant RenderAll(render, acc, items[k..]) == RenderAll(render, [], items)
    {
      assert items[k..][1..] == items[k + 1..];
      var one := render(items[k]);
      if one.Err? {
        return Err(one.error);
      }
      acc := acc + [one.value];
      k := k + 1;
    }
    return Ok(acc);
  }

  /* ------------------------------------------------------------ fallbacks */

  /** The MAC and tap-port filter: "tag op list", the list parenthesised for in and not in. */
  function ListFilter(tag: string, op: string, rendered: seq<string>): string
  {
    if rendered == [] then "" else tag + " " + op + " " + ListFor(op, Join(rendered, ","))
  }

  /** The filter of a tag without a translator: match(...) for regexp, NOT match(...) for not regexp, else "tag op value". */
  function Untranslated(tag: string, op: string, value: string): string
  {
    var lop := ToLower(op);
    if lop == "regexp" then "match(" + tag + "," + value + ")"
    else if lop == "not regexp" then "NOT match(" + tag + "," + value + ")"
    else tag + " " + op + " " + value
  }

  /** The argument layouts of the where templates. */
  datatype Shape = OpValue | OpValueKey | KeyOpValue | OpKeyValue | OpValueOpValue

  function Args(shape: Shape, o: string, value: string, key: string): seq<Arg>
  {
    match shape
    case OpValue => [S(o), S(value)]
    case OpValueKey => [S(o), S(value), S(key)]
    case KeyOpValue => [S(key), S(o), S(value)]
    case OpKeyValue => [S(o), S(key), S(value)]
    case OpValueOpValue => [S(o), S(value), S(o), S(value)]
  }

  /** The negated operators and the positive operator each one negates. */
  function Positive(lop: string): string
  {
    if lop == "not like" then "like"
    else if lop == "not in" then "in"
    else if lop == "!=" then "="
    else if lop == "not regexp" then "regexp"
    else ""
  }

  /**
   * The operator switch of the translated branches: regexp and not regexp
   * use the regexp template (when the branch has those cases) with "match";
   * not like, not in and != become not(...) of the positive operator's
   * translation; any other operator is passed as written.
   */
  function Negatable(lib: Lib, item: TagItem, op: string, shape: Shape, regexpShape: Option<Shape>,
                     value: string, key: string): string
  {
    var lop := ToLower(op);
    if regexpShape.Some? && lop == "regexp" then
      lib.sprintf(item.whereRegexpTranslator, Args(regexpShape.value, "match", value, key))
    else if regexpShape.Some? && lop == "not regexp" then
      Not(lib.sprintf(item.whereRegexpTranslator, Args(regexpShape.value, "match", value, key)))
    else if lop == "not like" || lop == "not in" || lop == "!=" then
      Not(lib.sprintf(item.whereTranslator, Args(shape, Positive(lop), value, key)))
    else lib.sprintf(item.whereTranslator, Args(shape, op, value, key))
  }

  lemma LowerOfLower(s: string)
    requires forall i :: 0 <= i < |s| ==> !('A' <= s[i] <= 'Z')
    ensures ToLower(s) == s
  {
  }

  /**
   * A negated operator translates to not(...) of the translation of its
   * positive operator (not regexp only where the branch has regexp cases).
   */
  lemma NegatableNegation(lib: Lib, item: TagItem, op: string, shape: Shape, regexpShape: Option<Shape>,
                          value: string, key: string)
    requires Positive(ToLower(op)) != ""
    requires ToLower(op) == "not regexp" ==> regexpShape.Some?
    ensures Negatable(lib, item, op, shape, regexpShape, value, key) ==
      Not(Negatable(lib, item, Positive(ToLower(op)), shape, regexpShape, value, key))
  {
    var p := Positive(ToLower(op));
    LowerOfLower(p);
  }

  /** A not regexp filter of an untranslated tag is NOT of the regexp filter; any other operator is written as given. */
  lemma UntranslatedNegation(tag: string, op: string, value: string)
    ensures ToLower(op) == "not regexp" ==> Untranslated(tag, op, value) == "NOT " + Untranslated(tag, "regexp", value)
    ensures ToLower(op) != "regexp" && ToLower(op) != "not regexp" ==> Untranslated(tag, op, value) == tag + " " + op + " " + value
  {
    LowerOfLower("regexp");
  }

  /** The translation of a label., tag. or attribute. column; None without such a prefix or when its table tag is missing. */
  function PrefixedFilter(lib: Lib, name: string, op: string, value: string): Option<string>
  {
    if HasPrefix(name, "label.") then
      var item := lib.getTag(LabelTagName(name));
      if item.None? then None
      else Some(Negatable(lib, item.value, op, OpValueKey, Some(OpValueKey), value, LabelKey(name)))
    else if HasPrefix(name, "tag.") || HasPrefix(name, "attribute.") then
      var item := lib.getTag(ExternalTagName(name));
      if item.None? then None
      else Some(Negatable(lib, item.value, op, KeyOpValue, Some(OpKeyValue), value, ExternalKey(name)))
    else None
  }

  /**
   * The filter of a tag missing from the tag table, looked up under `name`
   * and written as `tag`: MAC and tap-port values rendered as numbers,
   * label./tag./attribute. columns through their table tags, anything else
   * untranslated.
   */
  function FallbackFilter(lib: Lib, name: string, tag: string, op: string, value: string): Result<string>
  {
    if name in MAC_TAGS || name == "tap_port" then
      var kind := if name == "tap_port" then TapPortItem(value) else MacItem;
      var r := RenderAll(Renderer(lib, kind), [], ListItems(value));
      if r.Err? then Err(r.error) else Ok(ListFilter(tag, op, r.value))
    else
      var p := PrefixedFilter(lib, TrimChar(name, '`'), op, value);
      if p.Some? then Ok(p.value) else Ok(Untranslated(tag, op, value))
  }

  method Fallback(lib: Lib, name: string, tag: string, op: string, value: string) returns (r: Result<string>)
    ensures r == FallbackFilter(lib, name, tag, op, value)
  {
    if name in MAC_TAGS || name == "tap_port" {
      var kind := if name == "tap_port" then TapPortItem(value) else MacItem;
      var rendered := RenderItems(Renderer(lib, kind), ListItems(value));
      if rendered.Err? {
        return Err(rendered.error);
      }
      return Ok(ListFilter(tag, op, rendered.value));
    }
    var p := PrefixedFilter(lib, TrimChar(name, '`'), op, value);
    if p.Some? {
      return Ok(p.value);
    }
    return Ok(Untranslated(tag, op, value));
  }

  /** Every MAC of the list is rendered as its number, and the first unparsable MAC is the error. */
  lemma MacFallback(lib: Lib, name: string, tag: string, op: string, value: string)
    requires name in MAC_TAGS
    ensures var items := ListItems(value);
      var r := FallbackFilter(lib, name, tag, op, value);
      (r.Ok? <==> forall i :: 0 <= i < |items| ==> lib.parseMAC(TrimChar(items[i], '\'')).Ok?) &&
      (r.Ok? ==> exists macs: seq<string> ::
        (|macs| == |items| && r.value == tag + " " + op + " " + ListFor(op, Join(macs, ",")) &&
         forall i :: 0 <= i < |items| ==> macs[i] == Quoted(lib.parseMAC(TrimChar(items[i], '\'')).value)))
  {
    var items := ListItems(value);
    var f := Renderer(lib, MacItem);
    RenderAllSpec(f, [], items);
    var r := RenderAll(f, [], items);
    assert FallbackFilter(lib, name, tag, op, value) == (if r.Err? then Err(r.error) else Ok(ListFilter(tag, op, r.value)));
    assert forall x :: f(x) == (var m := lib.parseMAC(TrimChar(x, '\'')); if m.Err? then Err(m.error) else Ok(Quoted(m.value)));
  }

  /* ----------------------------------------------------- translated branches */

  /** An ip_version value: "4" selects IPv4 (1), anything else 0. */
  function IpVersion(item: string): string
  {
    if item == "4" then "1" else "0"
  }

  method VersionsOf(items: seq<string>) returns (versions: seq<string>)
    ensures |versions| == |items|
    ensures forall i :: 0 <= i < |items| ==> (versions[i] == "1" <==> items[i] == "4") && (versions[i] == "1" || versions[i] == "0")
  {
    versions := [];
    for k := 0 to |items|
      invariant |versions| == k
      invariant forall i :: 0 <= i < k ==> versions[i] == IpVersion(items[i])
    {
      versions := versions + [IpVersion(items[k])];
    }
  }

  function Versions(items: seq<string>): (r: seq<string>)
    ensures |r| == |items| && forall i :: 0 <= i < |items| ==> r[i] == IpVersion(items[i])
  {
    seq(|items|, i requires 0 <= i < |items| => IpVersion(items[i]))
  }

  /** The ip_version filter: the listed versions mapped to 1 / 0, parenthesised for in and not in. */
  function IpVersionFilter(lib: Lib, tr: string, op: string, value: string): string
  {
    var versions := Versions(ListItems(value));
    if versions == [] then tr else lib.sprintf(tr, [S(op), S(ListFor(op, Join(versions, ",")))])
  }

  predicate HasOther(items: seq<string>)
  {
    exists i :: 0 <= i < |items| && items[i] != "1"
  }

  /** The loop that looks for true ("1") and false (anything else) is_internet values. */
  method ScanInternet(items: seq<string>) returns (hasTrue: bool, hasFalse: bool)
    ensures hasTrue <==> "1" in items
    ensures hasFalse <==> HasOther(items)
  {
    hasTrue, hasFalse := false, false;
    for k := 0 to |items|
      invariant hasTrue <==> "1" in items[..k]
      invariant hasFalse <==> exists i :: 0 <= i < k && items[i] != "1"
    {
      assert items[..k + 1] == items[..k] + [items[k]];
      if items[k] == "1" {
        hasTrue := true;
      } else {
        hasFalse := true;
      }
    }
    assert items[..|items|] == items;
  }

  /** The is_internet operator: = when the values and the operator agree on "1", != otherwise; "" for a mixed list. */
  function InternetOp(op: string, hasTrue: bool, hasFalse: bool): string
  {
    var positive := op == "=" || op == "in";
    if hasTrue && hasFalse then ""
    else if hasTrue then (if positive then "=" else "!=")
    else (if positive then "!=" else "=")
  }

  /** is_internet as written: the "1=1" of a mixed list is overwritten by the translator with an empty operator. */
  function IsInternetFilterAsWritten(lib: Lib, tr: string, op: string, value: string): string
  {
    var items := ListItems(value);
    lib.sprintf(tr, [S(InternetOp(op, "1" in items, HasOther(items)))])
  }

  /** is_internet as intended: a mixed list keeps the always-true filter 1=1. */
  function IsInternetFilter(lib: Lib, tr: string, op: string, value: string): string
  {
    var items := ListItems(value);
    if "1" in items && HasOther(items) then "1=1"
    else lib.sprintf(tr, [S(InternetOp(op, "1" in items, HasOther(items)))])
  }

  /**
   * is_internet: a list of only "1" compares with = under = and in and with
   * != otherwise; a list without "1" swaps the two; a mixed list matches
   * everything.
   */
  lemma IsInternetMapping(lib: Lib, tr: string, op: string, value: string)
    ensures var items := ListItems(value);
      var positive := op == "=" || op == "in";
      ((forall i :: 0 <= i < |items| ==> items[i] == "1") ==>
        IsInternetFilter(lib, tr, op, value) == lib.sprintf(tr, [S(if positive then "=" else "!=")])) &&
      ("1" !in items ==> IsInternetFilter(lib, tr, op, value) == lib.sprintf(tr, [S(if positive then "!=" else "=")])) &&
      ("1" in items && HasOther(items) ==> IsInternetFilter(lib, tr, op, value) == "1=1")
  {
    var items := ListItems(value);
    assert items[0] in items;
  }

  lemma ListItemsPair(a: char, b: char)
    requires a != ',' && a != '(' && b != ',' && b != ')'
    ensures ListItems(['(', a, ',', b, ')']) == [[a], [b]]
  {
    var s := ['(', a, ',', b, ')'];
    assert TrimLeftChar(s[1..], '(') == s[1..];
    assert TrimLeftChar(s, '(') == s[1..];
    assert s[1..][..|s[1..]| - 1] == [a, ',', b];
    assert TrimRightChar([a, ',', b], ')') == [a, ',', b];
    assert TrimRightChar(s[1..], ')') == [a, ',', b];
    assert ',' in [a, ',', b] && [a, ',', b][1..][0] == ',';
    assert IndexOf([a, ',', b], ',') == 1;
    assert [a, ',', b][..1] == [a] && [a, ',', b][2..] == [b];
    assert ',' !in [b] && Split([b], ',') == [[b]];
    assert Split([a, ',', b], ',') == [[a]] + Split([b], ',');
  }

  /**
   * The overwrite at the end of the is_internet branch: for the mixed list
   * (0,1) under `in`, a translator of the form "l3_epc_id %s -2" yields
   * "l3_epc_id  -2" (no operator) where the always-true 1=1 was meant.
   */
  lemma IsInternetOverwrite(lib: Lib)
    requires forall t: string, a: seq<Arg> ::
      (lib.sprintf(t, a) == if t == "l3_epc_id %s -2" && |a| == 1 && a[0].S? then "l3_epc_id " + a[0].s + " -2" else t)
    ensures IsInternetFilterAsWritten(lib, "l3_epc_id %s -2", "in", "(0,1)") == "l3_epc_id  -2"
    ensures IsInternetFilter(lib, "l3_epc_id %s -2", "in", "(0,1)") == "1=1"
  {
    ListItemsPair('0', '1');
    assert "(0,1)" == ['(', '0', ',', '1', ')'];
    assert "1" in ["0", "1"] && HasOther(["0", "1"]) by {
      assert ["0", "1"][0] != "1";
    }
  }

  /** The _id filters joined by OR, negated for not in and !=. */
  function IdCombine(tr: string, op: string, filters: seq<string>): string
  {
    if filters == [] then tr
    else
      var equal := "(" + Join(filters, " OR ") + ")";
      if op == "not in" || op == "!=" then Not(equal) else equal
  }

  /** _id as written: every item re-parses the whole value, so a parenthesised list, even of one id, never parses. */
  function IdFilterAsWritten(lib: Lib, tr: string, op: string, value: string): Result<string>
  {
    var r := RenderAll(Renderer(lib, IdItemAsWritten(tr, op, value)), [], ListItems(value));
    if r.Err? then Err(r.error) else Ok(IdCombine(tr, op, r.value))
  }

  /** _id as intended: each item parsed on its own, one filter per id. */
  function IdFilter(lib: Lib, tr: string, op: string, value: string): Result<string>
  {
    var r := RenderAll(Renderer(lib, IdItem(tr, op, value)), [], ListItems(value));
    if r.Err? then Err(r.error) else Ok(IdCombine(tr, op, r.value))
  }

  lemma IdSamplesParse()
    ensures ParseInt64(TrimChar("(1,2)", '\'')).Err?
    ensures ParseInt64(TrimChar("1", '\'')) == Ok(1) && ParseInt64(TrimChar("2", '\'')) == Ok(2)
  {
    assert TrimLeftChar("(1,2)", '\'') == "(1,2)";
    assert TrimRightChar("(1,2)", '\'') == "(1,2)";
    assert !AllDigits("(1,2)") by {
      assert !IsDigit("(1,2)"[0]);
    }
    assert TrimChar("1", '\'') == "1" && TrimChar("2", '\'') == "2";
    assert DigitsValue("1") == 1 by {
      assert "1"[..0] == [];
    }
    assert DigitsValue("2") == 2 by {
      assert "2"[..0] == [];
    }
  }

  /** As written, the _id filter succeeds iff the whole value, not each item, parses as one integer. */
  lemma IdAsWrittenParsesWhole(lib: Lib, tr: string, op: string, value: string)
    ensures IdFilterAsWritten(lib, tr, op, value).Ok? <==> ParseInt64(TrimChar(value, '\'')).Ok?
  {
    var items := ListItems(value);
    var w := Renderer(lib, IdItemAsWritten(tr, op, value));
    RenderAllSpec(w, [], items);
    assert forall x :: w(x) == IdFilterOf(lib, tr, op, value, value);
    assert w(items[0]) == IdFilterOf(lib, tr, op, value, value);
  }

  lemma IdItemSample(lib: Lib, tr: string, value: string, item: string, n: int)
    requires (item == "1" && n == 1) || (item == "2" && n == 2)
    ensures Renderer(lib, IdItem(tr, "in", value))(item) == Ok("(" + lib.sprintf(tr, [S("in"), S(value), I(n)]) + ")")
  {
    IdSamplesParse();
    assert Renderer(lib, IdItem(tr, "in", value))(item) == IdFilterOf(lib, tr, "in", value, item);
  }

  lemma RenderPair(f: string -> Result<string>, p: string, q: string, x: string, y: string)
    requires f(p) == Ok(x) && f(q) == Ok(y)
    ensures RenderAll(f, [], [p, q]) == Ok([x, y])
  {
    assert [p, q][0] == p && [p, q][1..] == [q] && [q][0] == q && [q][1..] == [];
    assert [] + [x] == [x] && [x] + [y] == [x, y];
    assert RenderAll(f, [x], [q]) == RenderAll(f, [x, y], []);
    assert RenderAll(f, [], [p, q]) == RenderAll(f, [x], [q]);
  }

  /** The corrected _id filter of a two-id list. */
  lemma IdPairFilter(lib: Lib, tr: string, value: string)
    requires ListItems(value) == ["1", "2"]
    ensures var x, y := "(" + lib.sprintf(tr, [S("in"), S(value), I(1)]) + ")", "(" + lib.sprintf(tr, [S("in"), S(value), I(2)]) + ")";
      IdFilter(lib, tr, "in", value) == Ok("(" + (x + " OR " + y) + ")")
  {
    var f := Renderer(lib, IdItem(tr, "in", value));
    var a := lib.sprintf(tr, [S("in"), S(value), I(1)]);
    var b := lib.sprintf(tr, [S("in"), S(value), I(2)]);
    IdItemSample(lib, tr, value, "1", 1);
    IdItemSample(lib, tr, value, "2", 2);
    var x, y := "(" + a + ")", "(" + b + ")";
    RenderPair(f, "1", "2", x, y);
    assert [x, y][1..] == [y];
    assert Join([x, y], " OR ") == x + " OR " + y;
  }

  /**
   * `_id in (1,2)`: as written the loop parses "(1,2)" for each item and
   * fails; parsing each item gives one filter per id, joined by OR.
   */
  lemma IdListRejected(lib: Lib, tr: string, value: string)
    requires value == "(1,2)"
    ensures IdFilterAsWritten(lib, tr, "in", value).Err?
    ensures var x, y := "(" + lib.sprintf(tr, [S("in"), S(value), I(1)]) + ")", "(" + lib.sprintf(tr, [S("in"), S(value), I(2)]) + ")";
      IdFilter(lib, tr, "in", value) == Ok("(" + (x + " OR " + y) + ")")
  {
    IdSamplesParse();
    IdAsWrittenParsesWhole(lib, tr, "in", value);
    ListItemsPair('1', '2');
    assert value == ['(', '1', ',', '2', ')'];
    IdPairFilter(lib, tr, value);
  }

  /**
   * As written even a one-id list fails: "(1)" is parsed whole and is not
   * an integer, while the unparenthesised value "1" of `_id = 1` parses.
   */
  lemma IdParenthesisedRejected(lib: Lib, tr: string, op: string)
    ensures IdFilterAsWritten(lib, tr, op, "(1)").Err?
    ensures IdFilterAsWritten(lib, tr, op, "1").Ok?
  {
    IdSamplesParse();
    assert TrimLeftChar("(1)", '\'') == "(1)";
    assert TrimRightChar("(1)", '\'') == "(1)";
    assert !AllDigits("(1)") by {
      assert !IsDigit("(1)"[0]);
    }
    IdAsWrittenParsesWhole(lib, tr, op, "(1)");
    IdAsWrittenParsesWhole(lib, tr, op, "1");
  }

  /** The _id list loop renders every id iff every item parses, each as its parenthesised filter. */
  lemma IdItemsRendered(lib: Lib, tr: string, op: string, value: string)
    ensures var items := ListItems(value);
      var rendered := RenderAll(Renderer(lib, IdItem(tr, op, value)), [], items);
      (rendered.Ok? <==> forall i :: 0 <= i < |items| ==> ParseInt64(TrimChar(items[i], '\'')).Ok?) &&
      (rendered.Ok? ==> (|rendered.value| == |items| &&
        forall i :: 0 <= i < |items| ==>
          rendered.value[i] == "(" + lib.sprintf(tr, [S(op), S(value), I(ParseInt64(TrimChar(items[i], '\'')).value)]) + ")"))
  {
    var items := ListItems(value);
    var f := Renderer(lib, IdItem(tr, op, value));
    var rendered := RenderAll(f, [], items);
    RenderAllSpec(f, [], items);
    forall i | 0 <= i < |items| ensures f(items[i]) == IdFilterOf(lib, tr, op, value, items[i]) {
    }
    if rendered.Ok? {
      forall i | 0 <= i < |items|
        ensures rendered.value[i] == "(" + lib.sprintf(tr, [S(op), S(value), I(ParseInt64(TrimChar(items[i], '\'')).value)]) + ")"
      {
        assert rendered.value[0 + i] == f(items[i]).value;
      }
    }
  }

  /** _id: the ids of a list are each parsed, and their filters joined by OR, negated for not in and !=. */
  lemma IdFilterShape(lib: Lib, tr: string, op: string, value: string)
    ensures var items := ListItems(value);
      var r := IdFilter(lib, tr, op, value);
      (r.Ok? <==> forall i :: 0 <= i < |items| ==> ParseInt64(TrimChar(items[i], '\'')).Ok?) &&
      (r.Ok? ==> exists fs: seq<string> ::
        (|fs| == |items| &&
         (forall i :: 0 <= i < |items| ==>
           fs[i] == "(" + lib.sprintf(tr, [S(op), S(value), I(ParseInt64(TrimChar(items[i], '\'')).value)]) + ")") &&
         r.value == (if op == "not in" || op == "!=" then Not("(" + Join(fs, " OR ") + ")") else "(" + Join(fs, " OR ") + ")")))
  {
    IdItemsRendered(lib, tr, op, value);
    var rendered := RenderAll(Renderer(lib, IdItem(tr, op, value)), [], ListItems(value));
    if rendered.Ok? {
      var fs := rendered.value;
      assert IdFilter(lib, tr, op, value) == Ok(IdCombine(tr, op, fs));
    }
  }

  /* ------------------------------------------------------------- IP values */

  /** The IP items, trimmed of spaces, that are CIDR ranges (contain '/'), in order. */
  function CidrItems(items: seq<string>): seq<string>
  {
    if items == [] then []
    else
      var v := TrimChar(items[|items| - 1], ' ');
      CidrItems(items[..|items| - 1]) + (if Contains(v, "/") then [v] else [])
  }

  /** The hex forms of the IP items, trimmed of spaces, that are single addresses, in order. */
  function SingleIps(lib: Lib, items: seq<string>): seq<string>
  {
    if items == [] then []
    else
      var v := TrimChar(items[|items| - 1], ' ');
      SingleIps(lib, items[..|items| - 1]) + (if Contains(v, "/") then [] else [lib.ipToHex(v)])
  }

  /** The loop that sorts the IP items into CIDR ranges and single addresses. */
  method SplitIPs(lib: Lib, items: seq<string>) returns (cidrs: seq<string>, ips: seq<string>)
    ensures cidrs == CidrItems(items) && ips == SingleIps(lib, items)
  {
    cidrs, ips := [], [];
    for k := 0 to |items|
      invariant cidrs == CidrItems(items[..k]) && ips == SingleIps(lib, items[..k])
    {
      assert items[..k + 1][..k] == items[..k];
      var v := TrimChar(items[k], ' ');
      if Contains(v, "/") {
        cidrs := cidrs + [v];
      } else {
        ips := ips + [lib.ipToHex(v)];
      }
    }
    assert items[..|items|] == items;
  }

  /**
   * Every item is either a CIDR range or a single address: the two lists
   * together are as long as the items, and a range is listed iff a trimmed
   * item containing '/' is it.
   */
  lemma {:induction false} IpItemsPartition(lib: Lib, items: seq<string>)
    ensures |CidrItems(items)| + |SingleIps(lib, items)| == |items|
    ensures forall c :: c in CidrItems(items) <==> Contains(c, "/") && exists x :: x in items && TrimChar(x, ' ') == c
    ensures SingleIps(lib, items) == [] <==> forall x :: x in items ==> Contains(TrimChar(x, ' '), "/")
  {
    if items != [] {
      var init := items[..|items| - 1];
      IpItemsPartition(lib, init);
      assert items == init + [items[|items| - 1]];
      forall c
        ensures c in CidrItems(items) <==> Contains(c, "/") && exists x :: x in items && TrimChar(x, ' ') == c
      {
        if Contains(c, "/") && (exists x :: x in items && TrimChar(x, ' ') == c) {
          var x :| x in items && TrimChar(x, ' ') == c;
          if x != items[|items| - 1] {
            assert x in init;
          }
        }
      }
    }
  }

  /** The bound filters of single addresses under >= and <=, one per address. */
  method RangeFiltersOf(lib: Lib, tr: string, ipOp: string, ips: seq<string>) returns (filters: seq<string>)
    ensures |filters| == |ips| && forall i :: 0 <= i < |ips| ==> filters[i] == lib.sprintf(tr, [S(ipOp), S(ips[i])])
  {
    filters := [];
    for k := 0 to |ips|
      invariant |filters| == k && forall i :: 0 <= i < k ==> filters[i] == lib.sprintf(tr, [S(ipOp), S(ips[i])])
    {
      filters := filters + [lib.sprintf(tr, [S(ipOp), S(ips[k])])];
    }
  }

  function RangeFilters(lib: Lib, tr: string, ipOp: string, ips: seq<string>): seq<string>
  {
    seq(|ips|, i requires 0 <= i < |ips| => lib.sprintf(tr, [S(ipOp), S(ips[i])]))
  }

  /** The filter of the single addresses: OR of bounds under >= and <=, else one in / = comparison with the list. */
  function IpsFilter(lib: Lib, tr: string, ipOp: string, ips: seq<string>): string
  {
    if ips == [] then ""
    else if ipOp == ">=" || ipOp == "<=" then "(" + Join(RangeFilters(lib, tr, ipOp, ips), " OR ") + ")"
    else
      var equalOp := if ipOp == "in" || ipOp == "not in" then "in" else "=";
      "(" + lib.sprintf(tr, [S(equalOp), S(ListFor(ipOp, Join(ips, ",")))]) + ")"
  }

  /** The parts of the IP filter: the CIDR part if any range is listed, then the single-address part if any. */
  function IpParts(cidrFilters: seq<string>, ipsFilter: string): seq<string>
  {
    (if cidrFilters == [] then [] else ["(" + Join(cidrFilters, " OR ") + ")"]) + (if ipsFilter == "" then [] else [ipsFilter])
  }

  /** The IP filter: the OR of the CIDR and single-address parts, negated for not in and !=. */
  function IpFilter(lib: Lib, tr: string, op: string, value: string): Result<string>
  {
    IpFilterFor(lib, tr, ToLower(op), value)
  }

  /** The IP filter under the lower-cased operator `ipOp`. */
  function IpFilterFor(lib: Lib, tr: string, ipOp: string, value: string): Result<string>
  {
    var items := ListItems(value);
    var cf := RenderAll(Renderer(lib, CidrItem(tr, ipOp)), [], CidrItems(items));
    if cf.Err? then Err(cf.error)
    else
      var equal := "(" + Join(IpParts(cf.value, IpsFilter(lib, tr, ipOp, SingleIps(lib, items))), " OR ") + ")";
      Ok(if ipOp == "not in" || ipOp == "!=" then Not(equal) else equal)
  }

  method IpFilterOf(lib: Lib, tr: string, op: string, value: string) returns (r: Result<string>)
    ensures r == IpFilter(lib, tr, op, value)
  {
    var ipOp := ToLower(op);
    var cidrs, ips := SplitIPs(lib, ListItems(value));
    var cf := RenderItems(Renderer(lib, CidrItem(tr, ipOp)), cidrs);
    if cf.Err? {
      return Err(cf.error);
    }
    var ipsFilter := "";
    if ips != [] {
      if ipOp == ">=" || ipOp == "<=" {
        var filters := RangeFiltersOf(lib, tr, ipOp, ips);
        assert filters == RangeFilters(lib, tr, ipOp, ips);
        ipsFilter := "(" + Join(filters, " OR ") + ")";
      } else {
        var equalOp := if ipOp == "in" || ipOp == "not in" then "in" else "=";
        ipsFilter := "(" + lib.sprintf(tr, [S(equalOp), S(ListFor(ipOp, Join(ips, ",")))]) + ")";
      }
    }
    var equal := "(" + Join(IpParts(cf.value, ipsFilter), " OR ") + ")";
    if ipOp == "not in" || ipOp == "!=" {
      return Ok(Not(equal));
    }
    return Ok(equal);
  }

  /**
   * The IP filter is the OR of a CIDR part, present iff some item is a
   * range, and a single-address part, present iff some item is not; it
   * fails only on a range that does not parse.
   */
  lemma IpFilterShape(lib: Lib, tr: string, op: string, value: string)
    ensures IpFilter(lib, tr, op, value).Ok? <==>
      forall c :: c in CidrItems(ListItems(value)) ==> lib.parsePrefix(TrimChar(c, '\'')).Ok?
    ensures var items := ListItems(value);
      var r := IpFilter(lib, tr, op, value);
      var cidrs := CidrItems(items);
      (r.Ok? ==> exists parts: seq<string> ::
        |parts| == (if cidrs == [] then 0 else 1) + (if SingleIps(lib, items) == [] then 0 else 1) &&
        r.value == (if ToLower(op) == "not in" || ToLower(op) == "!=" then Not("(" + Join(parts, " OR ") + ")")
                    else "(" + Join(parts, " OR ") + ")"))
  {
    var items := ListItems(value);
    var ipOp := ToLower(op);
    var cidrs := CidrItems(items);
    var f := Renderer(lib, CidrItem(tr, ipOp));
    RenderAllSpec(f, [], cidrs);
    assert forall i :: 0 <= i < |cidrs| ==> (f(cidrs[i]).Ok? <==> lib.parsePrefix(TrimChar(cidrs[i], '\'')).Ok?);
    var cf := RenderAll(f, [], cidrs);
    if cf.Ok? {
      IpPartsCount(cf.value, lib, tr, ipOp, SingleIps(lib, items));
      assert cf.value == [] <==> cidrs == [];
    } else {
      var j :| 0 <= j < |cidrs| && f(cidrs[j]) == Err(cf.error);
      assert !lib.parsePrefix(TrimChar(cidrs[j], '\'')).Ok?;
      assert IpFilter(lib, tr, op, value).Err?;
    }
  }

  lemma IpPartsCount(cidrFilters: seq<string>, lib: Lib, tr: string, ipOp: string, ips: seq<string>)
    ensures |IpParts(cidrFilters, IpsFilter(lib, tr, ipOp, ips))| ==
      (if cidrFilters == [] then 0 else 1) + (if ips == [] then 0 else 1)
  {
  }

  /** not in (and !=) on IP values is not(...) of in (and =) on the same values. */
  lemma IpFilterNegation(lib: Lib, tr: string, op: string, value: string)
    requires ToLower(op) == "not in" || ToLower(op) == "!="
    ensures var pos := Positive(ToLower(op));
      var r := IpFilter(lib, tr, op, value);
      var p := IpFilter(lib, tr, pos, value);
      (r.Ok? <==> p.Ok?) && (r.Ok? ==> r.value == Not(p.value))
  {
    var lop := ToLower(op);
    var pos := Positive(lop);
    LowerOfLower(pos);
    IpNegatedFor(lib, tr, lop, pos, value);
  }

  /** The IP filters under a negated operator and its positive one differ only by the not(...). */
  lemma IpNegatedFor(lib: Lib, tr: string, lop: string, pos: string, value: string)
    requires (lop == "not in" && pos == "in") || (lop == "!=" && pos == "=")
    ensures var r := IpFilterFor(lib, tr, lop, value);
      var p := IpFilterFor(lib, tr, pos, value);
      (r.Ok? <==> p.Ok?) && (r.Ok? ==> r.value == Not(p.value))
  {
    var items := ListItems(value);
    var f, g := Renderer(lib, CidrItem(tr, lop)), Renderer(lib, CidrItem(tr, pos));
    assert forall x :: f(x) == g(x);
    RenderAllAlike(f, g, [], CidrItems(items));
    var ips := SingleIps(lib, items);
    assert IpsFilter(lib, tr, lop, ips) == IpsFilter(lib, tr, pos, ips);
  }

  /* ------------------------------------------------------- WhereTag.Trans */

  /** The tags with a translation rule of their own; any other tag takes the default operator switch. */
  const SPECIAL_TAGS: set<string> := {"ip_version", "_id"} + IS_INTERNET_TAGS + IP_TAGS

  /**
   * The filter of a tag found in the tag table under `whereTag`, before its
   * parentheses: the rules of ip_version, is_internet, _id and IP tags, and
   * the operator switch of the pod service and pod ingress tags and of every
   * other tag.
   */
  function BranchFilter(lib: Lib, whereTag: string, item: TagItem, op: string, value: string): Result<string>
  {
    var tr := item.whereTranslator;
    if whereTag == "ip_version" then Ok(IpVersionFilter(lib, tr, op, value))
    else if whereTag in IS_INTERNET_TAGS then Ok(IsInternetFilter(lib, tr, op, value))
    else if whereTag == "_id" then IdFilter(lib, tr, op, value)
    else if whereTag in IP_TAGS then IpFilter(lib, tr, op, value)
    else Ok(SwitchFilter(lib, whereTag, item, op, value))
  }

  /**
   * The operator switch of the tags without a rule of their own: the pod
   * service id tags (no regexp cases), the pod ingress and pod service tags
   * (operator and value given twice), and every other tag.
   */
  function SwitchFilter(lib: Lib, whereTag: string, item: TagItem, op: string, value: string): string
  {
    if whereTag in POD_SERVICE_ID_TAGS then Negatable(lib, item, op, OpValue, None, value, "")
    else if whereTag in POD_INGRESS_TAGS then Negatable(lib, item, op, OpValueOpValue, Some(OpValueOpValue), value, "")
    else Negatable(lib, item, op, OpValue, Some(OpValue), value, "")
  }

  /** A found tag: untranslated text when its where translator is empty, else its branch filter in parentheses. */
  function TranslatedFilter(lib: Lib, whereTag: string, item: TagItem, tag: string, op: string, value: string): Result<string>
  {
    if item.whereTranslator == "" then Ok(Untranslated(tag, op, value))
    else
      var b := BranchFilter(lib, whereTag, item, op, value);
      if b.Err? then b else Ok("(" + b.value + ")")
  }

  /** What WhereTag.Trans yields: the node (a filter text or an error) and the tag's new name and value. */
  datatype Outcome = Outcome(node: Result<string>, tag: string, value: string)

  /**
   * WhereTag.Trans: the wildcard rewrite of the value, then the tag's
   * translation if the table has it, else the translation of the column it
   * aliases (`asTagMap`), else the fallback rules; a tag neither found nor
   * aliased, other than a MAC or tap-port tag, loses its backquotes.
   */
  function TransSpec(lib: Lib, asTagMap: map<string, string>, tag: string, op: string, value: string): Outcome
  {
    var v := LikeValue(op, value);
    var direct := lib.getTag(tag);
    if direct.Some? then Outcome(TranslatedFilter(lib, tag, direct.value, tag, op, v), tag, v)
    else if tag in asTagMap then
      var pre := asTagMap[tag];
      var item := lib.getTag(pre);
      if item.Some? then Outcome(TranslatedFilter(lib, pre, item.value, tag, op, v), tag, v)
      else Outcome(FallbackFilter(lib, pre, tag, op, v), tag, v)
    else
      var tagOut := if tag in MAC_TAGS || tag == "tap_port" then tag else TrimChar(tag, '`');
      Outcome(FallbackFilter(lib, tag, tagOut, op, v), tagOut, v)
  }

  /** The translation of a found tag, with the loops of the ip_version, is_internet, _id and IP rules. */
  method Translated(lib: Lib, whereTag: string, item: TagItem, tag: string, op: string, value: string)
    returns (r: Result<string>)
    ensures r == TranslatedFilter(lib, whereTag, item, tag, op, value)
  {
    var tr := item.whereTranslator;
    if tr == "" {
      return Ok(Untranslated(tag, op, value));
    }
    var whereFilter := tr;
    if whereTag == "ip_version" {
      var items := ListItems(value);
      var versions := VersionsOf(items);
      assert versions == Versions(items);
      if versions != [] {
        whereFilter := lib.sprintf(tr, [S(op), S(ListFor(op, Join(versions, ",")))]);
      }
    } else if whereTag in IS_INTERNET_TAGS {
      var hasTrue, hasFalse := ScanInternet(ListItems(value));
      if hasTrue && hasFalse {
        whereFilter := "1=1";
      } else {
        whereFilter := lib.sprintf(tr, [S(InternetOp(op, hasTrue, hasFalse))]);
      }
    } else if whereTag == "_id" {
      var rendered := RenderItems(Renderer(lib, IdItem(tr, op, value)), ListItems(value));
      if rendered.Err? {
        return Err(rendered.error);
      }
      whereFilter := IdCombine(tr, op, rendered.value);
    } else if whereTag in IP_TAGS {
      var ip := IpFilterOf(lib, tr, op, value);
      if ip.Err? {
        return ip;
      }
      whereFilter := ip.value;
    } else {
      whereFilter := SwitchFilter(lib, whereTag, item, op, value);
    }
    return Ok("(" + whereFilter + ")");
  }

  /** A comparison `tag op value` of a WHERE clause; Trans rewrites the tag and the value in place. */
  class WhereTag {
    var tag: string
    var value: string

    constructor (tag: string, value: string)
      ensures this.tag == tag && this.value == value
    {
      this.tag := tag;
      this.value := value;
    }

    method Trans(lib: Lib, asTagMap: map<string, string>, op: string) returns (node: Result<string>)
      modifies this
      ensures Outcome(node, tag, value) == TransSpec(lib, asTagMap, old(tag), op, old(value))
    {
      var item := lib.getTag(tag);
      var whereTag := tag;
      if IsLike(op) {
        value := ReplaceChar(value, '*', '%');
      }
      if item.None? {
        if tag in asTagMap {
          var pre := asTagMap[tag];
          whereTag := pre;
          item := lib.getTag(pre);
          if item.None? {
            node := Fallback(lib, pre, tag, op, value);
            return;
          }
        } else {
          var name := tag;
          if !(tag in MAC_TAGS || tag == "tap_port") {
            tag := TrimChar(tag, '`');
          }
          node := Fallback(lib, name, tag, op, value);
          return;
        }
      }
      node := Translated(lib, whereTag, item.value, tag, op, value);
    }
  }

  /* ------------------------------------------- TimeTag and WhereFunction */

  /** A function of the query (its text) and the WITH clauses it needs. */
  datatype FunctionNode = FunctionNode(text: string, withs: seq<string>)

  /** The comparison of a function with a value. */
  datatype BinaryExpr = BinaryExpr(left: FunctionNode, right: string, op: string)

  /**
   * The state a WHERE clause collects while its comparisons are translated:
   * the WITH clauses of its functions and the time bounds given to its
   * time range, in the order they were added.
   */
  class Where {
    var withs: seq<string>
    var timeStarts: seq<int>
    var timeEnds: seq<int>

    constructor ()
      ensures withs == [] && timeStarts == [] && timeEnds == []
    {
      withs := [];
      timeStarts := [];
      timeEnds := [];
    }

    /**
     * TimeTag.Trans for `time op value`: a value that is not an int64 is
     * the error and nothing changes; otherwise >= adds a start, <= adds an
     * end, and the node is the comparison as written (`exprText`).
     */
    method TransTime(value: string, op: string, exprText: string) returns (node: Result<string>)
      modifies this
      ensures var t := ParseInt64(value);
        (t.Err? ==> node == Err(t.error) && timeStarts == old(timeStarts) && timeEnds == old(timeEnds)) &&
        (t.Ok? ==> (node == Ok(exprText) &&
                    timeStarts == old(timeStarts) + (if op == ">=" then [t.value] else []) &&
                    timeEnds == old(timeEnds) + (if op == "<=" then [t.value] else [])))
      ensures withs == old(withs)
    {
      var t := ParseInt64(value);
      if t.Err? {
        return Err(t.error);
      }
      if op == ">=" {
        timeStarts := timeStarts + [t.value];
      } else if op == "<=" {
        timeEnds := timeEnds + [t.value];
      }
      return Ok(exprText);
    }

    /**
     * WhereFunction.Trans: an operator the view does not know is an error
     * and nothing changes; otherwise the function's WITH clauses are added
     * and the node compares the function with the value.
     */
    method TransFunction(fn: FunctionNode, value: string, operators: string -> Option<string>, op: string)
      returns (node: Result<BinaryExpr>)
      modifies this
      ensures operators(op).None? ==> node == Err("opeartor: " + op + " not support") && withs == old(withs)
      ensures operators(op).Some? ==>
        node == Ok(BinaryExpr(fn, value, operators(op).value)) && withs == old(withs) + fn.withs
      ensures timeStarts == old(timeStarts) && timeEnds == old(timeEnds)
    {
      var o := operators(op);
      if o.None? {
        return Err("opeartor: " + op + " not support");
      }
      withs := withs + fn.withs;
      return Ok(BinaryExpr(fn, value, o.value));
    }
  }

  /** What GetWhere returns for a WHERE comparison. */
  datatype WhereStatement = TimeStatement(value: string) | TagStatement(tag: WhereTag)

  /** GetWhere: the time column compares the time range, any other name is a tag comparison. */
  method GetWhere(name: string, value: string) returns (s: WhereStatement)
    ensures name == "time" ==> s == TimeStatement(value)
    ensures name != "time" ==> s.TagStatement? && fresh(s.tag) && s.tag.tag == name && s.tag.value == value
  {
    if name == "time" {
      return TimeStatement(value);
    }
    var t := new WhereTag(name, value);
    return TagStatement(t);
  }

  /* ------------------------------------------------ properties of Trans */

  /**
   * The rewrite of the value and the tag: under LIKE and NOT LIKE the value
   * keeps its length and loses every '*', otherwise it is kept; the tag is
   * renamed only when it is neither in the table nor aliased, and then only
   * by losing its backquotes.
   */
  lemma TransRewrites(lib: Lib, asTagMap: map<string, string>, tag: string, op: string, value: string)
    ensures var o := TransSpec(lib, asTagMap, tag, op, value);
      (IsLike(op) ==> |o.value| == |value| && '*' !in o.value) && (!IsLike(op) ==> o.value == value) &&
      (o.tag != tag ==> lib.getTag(tag).None? && tag !in asTagMap && o.tag == TrimChar(tag, '`'))
  {
  }

  /**
   * An alias that the table does not know, of a column it does know with
   * a where translator, translates exactly as that column.
   */
  lemma TransAlias(lib: Lib, asTagMap: map<string, string>, tag: string, op: string, value: string)
    requires lib.getTag(tag).None? && tag in asTagMap
    requires lib.getTag(asTagMap[tag]).Some? && lib.getTag(asTagMap[tag]).value.whereTranslator != ""
    ensures TransSpec(lib, asTagMap, tag, op, value).node == TransSpec(lib, asTagMap, asTagMap[tag], op, value).node
  {
  }

  /**
   * In the operator-switch branches (every tag without a rule of its own,
   * not regexp excepted for the pod service id tags), a negated operator
   * translates to not(...) of its positive operator's translation, inside
   * the same parentheses.
   */
  lemma TransNegation(lib: Lib, asTagMap: map<string, string>, tag: string, op: string, value: string)
    requires lib.getTag(tag).Some? && lib.getTag(tag).value.whereTranslator != ""
    requires tag !in SPECIAL_TAGS
    requires Positive(ToLower(op)) != ""
    requires ToLower(op) == "not regexp" ==> tag !in POD_SERVICE_ID_TAGS
    ensures var n := TransSpec(lib, asTagMap, tag, op, value).node;
      var p := TransSpec(lib, asTagMap, tag, Positive(ToLower(op)), value).node;
      exists f :: p == Ok("(" + f + ")") && n == Ok("(" + Not(f) + ")")
  {
    var pos := Positive(ToLower(op));
    LowerOfLower(pos);
    assert LikeValue(op, value) == LikeValue(pos, value);
    var v := LikeValue(op, value);
    var item := lib.getTag(tag).value;
    SwitchNegation(lib, tag, item, op, v);
    var f := SwitchFilter(lib, tag, item, pos, v);
    assert TransSpec(lib, asTagMap, tag, pos, value).node == Ok("(" + f + ")");
  }

  /** The operator switch: a negated operator's filter is not(...) of its positive operator's filter. */
  lemma SwitchNegation(lib: Lib, whereTag: string, item: TagItem, op: string, value: string)
    requires Positive(ToLower(op)) != ""
    requires ToLower(op) == "not regexp" ==> whereTag !in POD_SERVICE_ID_TAGS
    ensures var pos := Positive(ToLower(op));
      SwitchFilter(lib, whereTag, item, op, value) == Not(SwitchFilter(lib, whereTag, item, pos, value))
  {
    var shape := if whereTag in POD_INGRESS_TAGS then OpValueOpValue else OpValue;
    var regexpShape := if whereTag in POD_SERVICE_ID_TAGS then None else Some(shape);
    NegatableNegation(lib, item, op, shape, regexpShape, value, "");
  }

  /**
   * A label column label.X_0 that is neither in the table nor aliased reads
   * table tag k8s_label_0 with key X (and _1, and plain label.X, alike).
   */
  lemma TransLabelColumn(lib: Lib, asTagMap: map<string, string>, x: string, op: string, value: string)
    requires !HasSuffix(x, "_0") && !HasSuffix(x, "_1")
    requires lib.getTag("label." + x + "_0").None? && "label." + x + "_0" !in asTagMap
    requires lib.getTag("k8s_label_0").Some?
    ensures TransSpec(lib, asTagMap, "label." + x + "_0", op, value).node ==
      Ok(Negatable(lib, lib.getTag("k8s_label_0").value, op, OpValueKey, Some(OpValueKey), LikeValue(op, value), x))
  {
    var name := "label." + x + "_0";
    LabelNaming(x);
    assert TrimLeftChar(name, '`') == name;
    assert TrimRightChar(name, '`') == name;
    assert HasPrefix(name, "label.");
    assert name !in MAC_TAGS && name != "tap_port" by {
      assert name[0] == 'l';
    }
  }

  /**
   * A tag that is neither in the table nor aliased, nor a MAC, tap-port,
   * label., tag. or attribute. column, is written untranslated under its
   * name without backquotes.
   */
  lemma TransUntranslated(lib: Lib, asTagMap: map<string, string>, tag: string, op: string, value: string)
    requires lib.getTag(tag).None? && tag !in asTagMap && tag !in MAC_TAGS && tag != "tap_port"
    requires var name := TrimChar(tag, '`');
      !HasPrefix(name, "label.") && !HasPrefix(name, "tag.") && !HasPrefix(name, "attribute.")
    ensures var name := TrimChar(tag, '`');
      var v := LikeValue(op, value);
      TransSpec(lib, asTagMap, tag, op, value) == Outcome(Ok(Untranslated(name, op, v)), name, v)
  {
  }
}
