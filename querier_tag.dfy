/**
 * The SELECT side of the ClickHouse query engine: the statement a selected
 * tag or metric becomes (its ClickHouse expression and alias), and the
 * tags and result callbacks that statement adds to the query model.
 */
module QuerierTag {
  import opened Wrappers
  import opened Text
  import opened QuerierCommon

  /** A selected column: its ClickHouse expression, its alias, its flag and its WITH clauses. */
  datatype SelectTag = SelectTag(value: string, alias: string, flag: int, withs: seq<string>)
  {
    /** The name the result column carries: the alias, or the expression itself without one. */
    function DisplayName(): string
    {
      if alias != "" then alias else value
    }

    /** Format: adds the column to the model, then its callbacks. */
    method Format(m: Model)
      modifies m
      ensures m.tags == old(m.tags) + [ViewTag(value, alias, flag, withs)]
      ensures m.callbacks == old(m.callbacks) + FormatCallbacks(this)
    {
      m.AddTag(ViewTag(value, alias, flag, withs));
      if value in MAC_VALUES {
        var a := value;
        if alias != "" {
          a := alias;
        }
        m.AddCallback(MacTranslate(value, a));
      }
      if alias == "tags" || alias == "attributes" {
        m.AddCallback(ExternalTagsFormat);
      }
    }
  }

  /** A statement with only an expression and an alias. */
  function Plain(value: string, alias: string): SelectTag
  {
    SelectTag(value, alias, 0, [])
  }

  /** The columns whose values the result shows as MAC addresses: the tap port and the MAC tags. */
  const MAC_VALUES: set<string> := {"tap_port", "mac_0", "mac_1", "tunnel_tx_mac_0", "tunnel_tx_mac_1",
    "tunnel_rx_mac_0", "tunnel_rx_mac_1"}

  /** The tag entry a lookup returns: the zero entry on a miss. */
  function TagOrZero(o: Option<TagItem>): TagItem
  {
    if o.Some? then o.value else ZERO_TAG
  }

  /**
   * GetTagTranslator: the select alias is `alias`, or `name` without one.
   * A name in the tag table selects its tag translator, or without one the
   * name itself. A missing label., tag. or attribute. column selects its
   * table tag's translator applied to its key (the zero entry's when that
   * tag is missing too); any other missing name has no statement. The error
   * is always nil and is not modelled.
   */
  function GetTagTranslator(lib: Lib, name: string, alias: string): (r: Option<SelectTag>)
    ensures r.Some? ==> r.value.flag == 0 && r.value.withs == []
    ensures r.None? <==> (lib.getTag(name).None? &&
                          !HasPrefix(TrimChar(name, '`'), "label.") && !HasPrefix(TrimChar(name, '`'), "tag.") &&
                          !HasPrefix(TrimChar(name, '`'), "attribute."))
    ensures lib.getTag(name).Some? && lib.getTag(name).value.tagTranslator != "" ==>
      r == Some(Plain(lib.getTag(name).value.tagTranslator, if alias != "" then alias else name))
  {
    var selectTag := if alias != "" then alias else name;
    var item := lib.getTag(name);
    if item.None? then
      var n := TrimChar(name, '`');
      if HasPrefix(n, "label.") then
        Some(Plain(lib.sprintf(TagOrZero(lib.getTag(LabelTagName(n))).tagTranslator, [S(LabelKey(n))]), selectTag))
      else if HasPrefix(n, "tag.") || HasPrefix(n, "attribute.") then
        Some(Plain(lib.sprintf(TagOrZero(lib.getTag(ExternalTagName(n))).tagTranslator, [S(ExternalKey(n))]), selectTag))
      else None
    else if item.value.tagTranslator != "" then Some(Plain(item.value.tagTranslator, selectTag))
    else if alias != "" then Some(Plain(name, selectTag))
    else Some(Plain(selectTag, ""))
  }

  /**
   * The column a selected tag yields is named by the alias when one is
   * given and by the name otherwise.
   */
  lemma SelectedTagName(lib: Lib, name: string, alias: string)
    requires name != ""
    ensures var r := GetTagTranslator(lib, name, alias);
      r.Some? ==> r.value.DisplayName() == if alias != "" then alias else name
  {
    var r := GetTagTranslator(lib, name, alias);
    if r.Some? && lib.getTag(name).None? {
      var n := TrimChar(name, '`');
      assert HasPrefix(n, "label.") || HasPrefix(n, "tag.") || HasPrefix(n, "attribute.");
      assert name != "";
    }
  }

  /** A name in the tag table without a tag translator selects the name itself, under the alias if any. */
  lemma KnownUntranslatedTag(lib: Lib, name: string, alias: string)
    requires lib.getTag(name).Some? && lib.getTag(name).value.tagTranslator == ""
    ensures GetTagTranslator(lib, name, alias) == Some(Plain(name, alias))
  {
  }

  /** A missing label column label.X_0 selects k8s_label_0's translator applied to X. */
  lemma LabelColumnTag(lib: Lib, x: string, alias: string)
    requires !HasSuffix(x, "_0") && !HasSuffix(x, "_1")
    requires lib.getTag("label." + x + "_0").None?
    ensures GetTagTranslator(lib, "label." + x + "_0", alias) ==
      Some(Plain(lib.sprintf(TagOrZero(lib.getTag("k8s_label_0")).tagTranslator, [S(x)]),
                 if alias != "" then alias else "label." + x + "_0"))
  {
    var name := "label." + x + "_0";
    LabelNaming(x);
    assert TrimLeftChar(name, '`') == name;
    assert TrimRightChar(name, '`') == name;
    assert HasPrefix(name, "label.");
  }

  /** A missing external column tag.K (attribute.K) selects the tag (attribute) translator applied to K. */
  lemma ExternalColumnTag(lib: Lib, k: string, alias: string)
    requires !HasPrefix(k, "attribute.") && !HasSuffix(k, "`")
    requires lib.getTag("tag." + k).None?
    ensures GetTagTranslator(lib, "tag." + k, alias) ==
      Some(Plain(lib.sprintf(TagOrZero(lib.getTag("tag")).tagTranslator, [S(k)]), if alias != "" then alias else "tag." + k))
  {
    var name := "tag." + k;
    ExternalNaming(k);
    assert name[|name| - 1] != '`' by {
      if |k| > 0 {
        assert name[|name| - 1..] == k[|k| - 1..];
      }
    }
    assert TrimLeftChar(name, '`') == name;
    assert TrimRightChar(name, '`') == name;
    assert !HasPrefix(name, "label.") by {
      assert name[0] == 't';
    }
  }

  /**
   * GetMetricsTag: the metric's field under the alias; without an alias,
   * under the name when the field is named otherwise. An unknown metric
   * (looked up without backquotes) has no statement.
   */
  function GetMetricsTag(lib: Lib, name: string, alias: string): (r: Option<SelectTag>)
    ensures r.Some? <==> lib.getMetrics(TrimChar(name, '`')).Some?
    ensures r.Some? ==> r.value.value == lib.getMetrics(TrimChar(name, '`')).value.dbField
  {
    var metric := lib.getMetrics(TrimChar(name, '`'));
    if metric.None? then None
    else
      var a := if alias == "" && metric.value.dbField != name then name else alias;
      Some(Plain(metric.value.dbField, a))
  }

  /** The column a selected metric yields is named by the alias when one is given and by the name otherwise. */
  lemma SelectedMetricName(lib: Lib, name: string, alias: string)
    requires name != ""
    ensures var r := GetMetricsTag(lib, name, alias);
      r.Some? ==> r.value.DisplayName() == if alias != "" then alias else name
  {
  }

  /** GetDefaultTag: the name under the alias as given. */
  function GetDefaultTag(name: string, alias: string): (r: SelectTag)
    ensures r.value == name && r.alias == alias && r.DisplayName() == (if alias != "" then alias else name)
  {
    Plain(name, alias)
  }

  /** A column of the query model. */
  datatype ViewTag = ViewTag(value: string, alias: string, flag: int, withs: seq<string>)

  /** The result callbacks: MAC rendering of a column under its result name, and the external tags format. */
  datatype Callback = MacTranslate(column: string, resultName: string) | ExternalTagsFormat

  /**
   * The callbacks a selected column adds: MAC rendering for the tap port
   * and the MAC tags, under the column's result name, and the external tags
   * format for the tags and attributes aliases, in that order.
   */
  function FormatCallbacks(t: SelectTag): (r: seq<Callback>)
    ensures |r| <= 2
    ensures t.value in MAC_VALUES ==> |r| >= 1 && r[0] == MacTranslate(t.value, t.DisplayName())
    ensures forall i :: 0 <= i < |r| && r[i].MacTranslate? ==>
      t.value in MAC_VALUES && i == 0 && r[i] == MacTranslate(t.value, t.DisplayName())
    ensures ExternalTagsFormat in r <==> t.alias == "tags" || t.alias == "attributes"
  {
    (if t.value in MAC_VALUES then [MacTranslate(t.value, t.DisplayName())] else []) +
    (if t.alias == "tags" || t.alias == "attributes" then [ExternalTagsFormat] else [])
  }

  /** The query model's columns and result callbacks, in the order they were added. */
  class Model {
    var tags: seq<ViewTag>
    var callbacks: seq<Callback>

    constructor ()
      ensures tags == [] && callbacks == []
    {
      tags := [];
      callbacks := [];
    }

    method AddTag(t: ViewTag)
      modifies this
      ensures tags == old(tags) + [t] && callbacks == old(callbacks)
    {
      tags := tags + [t];
    }

    method AddCallback(c: Callback)
      modifies this
      ensures callbacks == old(callbacks) + [c] && tags == old(tags)
    {
      callbacks := callbacks + [c];
    }
  }
}
