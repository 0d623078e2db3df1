/**
 * The chart's options: the built-in defaults and the shallow merge that lets
 * every key the caller supplies replace the default, falsy values included
 * (g.radar.js:52, 67-79).
 */
module Options {
  import opened Values

  /** An options object, keyed by property name. */
  type Options = map<string, Value>

  /** The defaults the builder starts from. */
  function Defaults(): Options
  {
    map[
      "meshwidth" := Num(1.0),
      "strokewidth" := Num(2.0),
      "stroke" := Str("#f90"),
      "meshcolor" := Str("#999"),
      "helplines" := Num(5.0),
      "circleradius" := Num(10.0),
      "numbers" := Bool(true),
      "numberscolor" := Str("#fff")
    ]
  }

  /** `opts || {}`: a missing options object reads as an empty one. */
  function Given(opts: Option<Options>): (g: Options)
    ensures opts.None? ==> g == map[]
    ensures opts.Some? ==> g == opts.value
  {
    if opts.Some? then opts.value else map[]
  }

  /**
   * What the for-in loop copying every own property of `opts` over the
   * defaults leaves behind: a supplied key always wins, whatever its value
   * (falsy ones included); an absent key keeps its built-in value, and no
   * other key appears.
   */
  ghost predicate MergeOf(merged: Options, opts: Option<Options>)
  {
    merged.Keys == Defaults().Keys + Given(opts).Keys &&
    (forall k :: k in Given(opts) ==> merged[k] == Given(opts)[k]) &&
    (forall k :: k in Defaults() && k !in Given(opts) ==> merged[k] == Defaults()[k])
  }

  /** The for-in loop over `opts` (g.radar.js:77-79), starting from the defaults. */
  method Merge(opts: Option<Options>) returns (merged: Options)
    ensures MergeOf(merged, opts)
  {
    var given := Given(opts);
    merged := Defaults();
    var pending := given.Keys;
    while pending != {}
      invariant pending <= given.Keys
      invariant merged.Keys == Defaults().Keys + (given.Keys - pending)
      invariant forall k :: k in given && k !in pending ==> merged[k] == given[k]
      invariant forall k :: k in Defaults() && k !in given ==> merged[k] == Defaults()[k]
      decreases pending
    {
      var k :| k in pending;
      merged := merged[k := given[k]];
      pending := pending - {k};
    }
  }

  /** The merge is determined by `opts`: any two results agree. */
  lemma MergeUnique(a: Options, b: Options, opts: Option<Options>)
    requires MergeOf(a, opts) && MergeOf(b, opts)
    ensures a == b
  {
    forall k | k in a.Keys
      ensures a[k] == b[k]
    {
      if k !in Given(opts) {
        assert k in Defaults();
      }
    }
  }

  /** With no options object, the merged options are exactly the built-in defaults. */
  lemma NoOptionsMeansDefaults(merged: Options)
    requires MergeOf(merged, None)
    ensures merged == Defaults()
    ensures merged["helplines"] == Num(5.0) && merged["numbers"] == Bool(true)
  {
    assert MergeOf(Defaults(), None);
    MergeUnique(merged, Defaults(), None);
  }
}
