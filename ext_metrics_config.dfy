/**
 * The ext_metrics section of the ingester configuration: defaults, the
 * overlay of the YAML file, and Validate's repair of the decoder queue
 * count and the TTL.
 *
 * Reading the file is an input (`ConfigFile`); a YAML document is the set
 * of keys it gives, each overriding the default it names.
 */
module ExtMetricsConfig {
  import opened Wrappers
  import opened FixedWidth

  const DEFAULT_DECODER_QUEUE_COUNT: i64 := 2
  const DEFAULT_DECODER_QUEUE_SIZE: i64 := 100000
  const DEFAULT_EXT_METRICS_TTL: i64 := 7

  datatype CKWriterConfig = CKWriterConfig(queueCount: i64, queueSize: i64, batchSize: i64, flushTimeout: i64)

  /** The section's values; `base` stands for the shared ingester configuration it points to. */
  datatype Values = Values(
    base: nat, ckWriter: CKWriterConfig, decoderQueueCount: i64, decoderQueueSize: i64,
    ttl: i64, prometheusSeparatePos: i64)

  /** The keys a YAML document sets under `ingester`; absent keys keep their defaults. */
  datatype Overrides = Overrides(
    queueCount: Option<i64>, queueSize: Option<i64>, batchSize: Option<i64>, flushTimeout: Option<i64>,
    decoderQueueCount: Option<i64>, decoderQueueSize: Option<i64>, ttl: Option<i64>,
    prometheusSeparatePos: Option<i64>)

  /** The configuration file: absent, unreadable, or its parsed YAML (an Err when it does not parse). */
  datatype ConfigFile = Missing | Unreadable | Parsed(doc: Result<Overrides>)

  /** The values Load starts from. */
  function Defaults(base: nat): (r: Values)
    ensures r.ckWriter == CKWriterConfig(1, 100000, 51200, 10)
    ensures r.decoderQueueCount == 2 && r.decoderQueueSize == 100000 && r.ttl == 7 && r.prometheusSeparatePos == 1
  {
    Values(base, CKWriterConfig(1, 100000, 51200, 10), DEFAULT_DECODER_QUEUE_COUNT,
           DEFAULT_DECODER_QUEUE_SIZE, DEFAULT_EXT_METRICS_TTL, 1)
  }

  function Validated(c: Values): Values
  {
    c.(decoderQueueCount := if c.decoderQueueCount == 0 then DEFAULT_DECODER_QUEUE_COUNT else c.decoderQueueCount,
       ttl := if c.ttl <= 0 then DEFAULT_EXT_METRICS_TTL else c.ttl)
  }

  /**
   * Validate sets a zero decoder queue count to 2 and a non-positive TTL to
   * 7, keeps every other value, and applying it twice changes nothing more.
   */
  lemma ValidateRepairs(c: Values)
    ensures var r := Validated(c);
      (r.decoderQueueCount == 2 <==> c.decoderQueueCount == 0 || c.decoderQueueCount == 2) &&
      (c.decoderQueueCount != 0 ==> r.decoderQueueCount == c.decoderQueueCount) &&
      r.decoderQueueCount != 0 &&
      (c.ttl <= 0 ==> r.ttl == 7) && (c.ttl > 0 ==> r.ttl == c.ttl) && r.ttl > 0 &&
      r.(decoderQueueCount := c.decoderQueueCount, ttl := c.ttl) == c &&
      Validated(r) == r
  {
  }

  function Overlay<T>(v: T, o: Option<T>): T
  {
    if o.Some? then o.value else v
  }

  /** yaml.Unmarshal into the defaults: each key present replaces its value. */
  function Apply(c: Values, o: Overrides): Values
  {
    c.(ckWriter := CKWriterConfig(Overlay(c.ckWriter.queueCount, o.queueCount), Overlay(c.ckWriter.queueSize, o.queueSize),
                                  Overlay(c.ckWriter.batchSize, o.batchSize), Overlay(c.ckWriter.flushTimeout, o.flushTimeout)),
       decoderQueueCount := Overlay(c.decoderQueueCount, o.decoderQueueCount),
       decoderQueueSize := Overlay(c.decoderQueueSize, o.decoderQueueSize),
       ttl := Overlay(c.ttl, o.ttl),
       prometheusSeparatePos := Overlay(c.prometheusSeparatePos, o.prometheusSeparatePos))
  }

  /**
   * Load: without a file the defaults; with an unreadable file the
   * validated defaults; a file that does not parse ends the process (None);
   * otherwise the file's values over the defaults, validated.
   */
  function LoadSpec(base: nat, file: ConfigFile): Option<Values>
  {
    match file
    case Missing => Some(Defaults(base))
    case Unreadable => Some(Validated(Defaults(base)))
    case Parsed(doc) => if doc.Err? then None else Some(Validated(Apply(Defaults(base), doc.value)))
  }

  /**
   * Every configuration Load returns has a non-zero decoder queue count and
   * a positive TTL; keys the file sets are kept unless Validate repairs
   * them, and keys it leaves out keep their defaults.
   */
  lemma LoadedIsValid(base: nat, file: ConfigFile)
    ensures var r := LoadSpec(base, file);
      (r.Some? ==> r.value.decoderQueueCount != 0 && r.value.ttl > 0 && r.value.base == base) &&
      (r.None? <==> file.Parsed? && file.doc.Err?) &&
      (file.Parsed? && file.doc.Ok? ==>
        var o := file.doc.value;
        r.value.decoderQueueSize == Overlay(DEFAULT_DECODER_QUEUE_SIZE, o.decoderQueueSize) &&
        r.value.prometheusSeparatePos == Overlay(1, o.prometheusSeparatePos) &&
        r.value.ckWriter == CKWriterConfig(Overlay(1, o.queueCount), Overlay(100000, o.queueSize),
                                           Overlay(51200, o.batchSize), Overlay(10, o.flushTimeout)) &&
        (o.ttl.Some? && o.ttl.value > 0 ==> r.value.ttl == o.ttl.value) &&
        (o.decoderQueueCount.Some? && o.decoderQueueCount.value != 0 ==>
          r.value.decoderQueueCount == o.decoderQueueCount.value))
  {
  }

  class Config {
    var values: Values

    constructor (values: Values)
      ensures this.values == values
    {
      this.values := values;
    }

    /** Validate: repairs the decoder queue count and the TTL in place; it never fails. */
    method Validate() returns (err: Option<string>)
      modifies this
      ensures values == Validated(old(values)) && err.None?
    {
      if values.decoderQueueCount == 0 {
        values := values.(decoderQueueCount := DEFAULT_DECODER_QUEUE_COUNT);
      }
      if values.ttl <= 0 {
        values := values.(ttl := DEFAULT_EXT_METRICS_TTL);
      }
      return None;
    }
  }

  /** Load: None where the source exits the process. */
  method Load(base: nat, file: ConfigFile) returns (r: Option<Config>)
    ensures r.Some? ==> fresh(r.value) && LoadSpec(base, file) == Some(r.value.values)
    ensures r.None? ==> LoadSpec(base, file).None?
  {
    var c := new Config(Defaults(base));
    match file {
      case Missing =>
        return Some(c);
      case Unreadable =>
        var _ := c.Validate();
        return Some(c);
      case Parsed(doc) =>
        if doc.Err? {
          return None;
        }
        c.values := Apply(c.values, doc.value);
        var _ := c.Validate();
        return Some(c);
    }
  }
}
