/**
 * The four amount fields of the page and `convert(source)`, which runs on
 * every edit of one of them and rewrites the other three from the current
 * rate table.
 */
module Sync {
  import opened Wrappers
  import opened Currencies
  import opened Fixed
  import opened Rates
  import opened Store

  /**
   * The two JavaScript built-ins convert relies on, taken as inputs:
   * `parseFloat` from a field's text to a number (None standing for NaN), and
   * `Number.prototype.toFixed(2)` from a number to its two-decimal text, for
   * which Fixed.ToFixed2 spells out the rule over exact reals.
   */
  datatype Builtins = Builtins(parseFloat: string -> Option<real>, toFixed2: real -> string)

  /** The texts of the four amount inputs `#jpy`, `#usd`, `#eur` and `#try`. */
  datatype Texts = Texts(jpy: string, usd: string, eur: string, try: string)

  /** The text of the input for currency c. */
  function Field(f: Texts, c: Currency): (s: string) {
    match c
    case JPY => f.jpy
    case USD => f.usd
    case EUR => f.eur
    case TRY => f.try
  }

  /** The text written for an amount converted at a rate: `(amount * rate).toFixed(2)`. */
  function Shown(js: Builtins, amount: real, rate: real): (s: string) {
    js.toFixed2(amount * rate)
  }

  /**
   * What convert(source) needs of the table: the rates row of the source is
   * read only when the source text is a number, so a blank or non-numeric
   * text can be converted on any table, even the empty one the page starts with.
   */
  predicate CanConvert(f: Texts, source: Currency, t: Table, js: Builtins) {
    js.parseFloat(Field(f, source)).Some? ==> Shaped(t)
  }

  /** What convert(source) leaves in the input for c. */
  function Written(f: Texts, source: Currency, t: Table, js: Builtins, c: Currency): (s: string)
    requires CanConvert(f, source, t, js)
  {
    if c == source then Field(f, c)
    else
      match js.parseFloat(Field(f, source))
      case None => ""
      case Some(v) =>
        ShapedHas(t, source, c);
        Shown(js, v, t[source][c])
  }

  /**
   * The inputs as convert(source) leaves them: the source input as it was;
   * every other input blank when the source text is not a number, and
   * otherwise the two-decimal text of the amount times rates[source][target].
   */
  function Synced(f: Texts, source: Currency, t: Table, js: Builtins): (r: Texts)
    requires CanConvert(f, source, t, js)
    ensures Field(r, source) == Field(f, source)
  {
    Texts(Written(f, source, t, js, JPY), Written(f, source, t, js, USD),
          Written(f, source, t, js, EUR), Written(f, source, t, js, TRY))
  }

  /** The page's four amount inputs, each holding the text the user or convert put there. */
  class FieldSet {
    var jpy: string
    var usd: string
    var eur: string
    var try: string

    function Contents(): Texts
      reads this
    {
      Texts(jpy, usd, eur, try)
    }

    constructor (initial: Texts)
      ensures Contents() == initial
    {
      jpy, usd, eur, try := initial.jpy, initial.usd, initial.eur, initial.try;
    }

    /** The value of the input for currency c, as `document.getElementById(source).value` reads it. */
    function Value(c: Currency): (s: string)
      reads this
    {
      Field(Contents(), c)
    }

    /**
     * `convert(source)`: every input but the source one is rewritten, each at
     * most once. A numeric source needs a table with every cross entry
     * present; which values those entries hold after initialisation is
     * SyncedExact's concern.
     */
    method Convert(source: Currency, store: RateStore, js: Builtins)
      requires CanConvert(Contents(), source, store.rates, js)
      modifies this
      ensures Contents() == Synced(old(Contents()), source, store.rates, js)
    {
      var value := js.parseFloat(Value(source));
      if value.None? {
        if source != JPY { jpy := ""; }
        if source != USD { usd := ""; }
        if source != EUR { eur := ""; }
        if source != TRY { try := ""; }
        return;
      }
      var v := value.value;
      var rates := store.rates;
      match source
      case JPY =>
        usd := Shown(js, v, rates[JPY][USD]);
        eur := Shown(js, v, rates[JPY][EUR]);
        try := Shown(js, v, rates[JPY][TRY]);
      case USD =>
        jpy := Shown(js, v, rates[USD][JPY]);
        eur := Shown(js, v, rates[USD][EUR]);
        try := Shown(js, v, rates[USD][TRY]);
      case EUR =>
        jpy := Shown(js, v, rates[EUR][JPY]);
        usd := Shown(js, v, rates[EUR][USD]);
        try := Shown(js, v, rates[EUR][TRY]);
      case TRY =>
        jpy := Shown(js, v, rates[TRY][JPY]);
        usd := Shown(js, v, rates[TRY][USD]);
        eur := Shown(js, v, rates[TRY][EUR]);
    }
  }

  /** A source text that is not a number blanks every other input. */
  lemma SyncedBlanks(f: Texts, source: Currency, t: Table, js: Builtins)
    requires js.parseFloat(Field(f, source)).None?
    ensures forall c :: c != source ==> Field(Synced(f, source, t, js), c) == ""
  {
  }

  /**
   * A numeric source text v writes into every other input c the rounded text
   * of v times the exact cross rate from the source to c.
   */
  lemma SyncedExact(f: Texts, source: Currency, t: Table, base: Row, js: Builtins, v: real)
    requires DerivedFrom(t, base) && js.parseFloat(Field(f, source)) == Some(v)
    ensures forall c :: c != source ==> Field(Synced(f, source, t, js), c) == Shown(js, v, Rate(base, source, c))
  {
    forall c | c != source
      ensures Field(Synced(f, source, t, js), c) == Shown(js, v, Rate(base, source, c))
    {
      EntryPair(t, base, source, c);
    }
  }

  /** Nothing accumulates: converting again from the same input changes nothing. */
  lemma SyncedIdempotent(f: Texts, source: Currency, t: Table, js: Builtins)
    requires CanConvert(f, source, t, js)
    ensures Synced(Synced(f, source, t, js), source, t, js) == Synced(f, source, t, js)
  {
    SameSourceSameFields(Synced(f, source, t, js), f, source, t, js);
  }

  /** The result depends on the source text and the table only, not on what the other inputs held. */
  lemma SyncedForgetsOthers(f: Texts, g: Texts, source: Currency, t: Table, js: Builtins)
    requires CanConvert(f, source, t, js) && Field(f, source) == Field(g, source)
    ensures Synced(f, source, t, js) == Synced(g, source, t, js)
  {
    SameSourceSameFields(f, g, source, t, js);
  }

  lemma SameSourceSameFields(f: Texts, g: Texts, source: Currency, t: Table, js: Builtins)
    requires CanConvert(f, source, t, js) && Field(f, source) == Field(g, source)
    ensures forall c :: Written(f, source, t, js, c) == Written(g, source, t, js, c)
  {
  }
}
