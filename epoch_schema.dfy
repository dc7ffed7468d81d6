/**
 * Per-epoch schema names. `PostgresEpoch::build_schema_name` and
 * `parse_epoch_from_schema_name` live in postgres_epoch.rs, which is not part
 * of this model: the name is taken to be the prefix followed by the epoch in
 * decimal (the form "rpc2a_epoch_552" named at
 * history/src/block_stores/postgres_block_store.rs:392), and the range lookup
 * recognises names by the pattern `^<prefix>[0-9]+$` (line 398).
 */
module EpochSchema {

  type Epoch = nat

  /** `EPOCH_SCHEMA_PREFIX`. */
  const EpochSchemaPrefix: string := "rpc2a_epoch_"

  predicate IsDigit(c: char)
  {
    '0' <= c <= '9'
  }

  predicate AllDigits(s: string)
  {
    forall i :: 0 <= i < |s| ==> IsDigit(s[i])
  }

  function DigitChar(d: nat): (c: char)
    requires d < 10
    ensures IsDigit(c)
  {
    ('0' as int + d) as char
  }

  function DigitValue(c: char): (d: nat)
    requires IsDigit(c)
    ensures d < 10 && DigitChar(d) == c
  {
    c as int - '0' as int
  }

  /** The decimal representation of `n`, without leading zeros. */
  function Decimal(n: nat): (s: string)
    ensures |s| > 0 && AllDigits(s)
  {
    if n < 10 then [DigitChar(n)] else Decimal(n / 10) + [DigitChar(n % 10)]
  }

  /** The value of a string of decimal digits (leading zeros allowed). */
  function ParseDecimal(s: string): nat
    requires AllDigits(s)
  {
    if s == [] then 0 else ParseDecimal(s[..|s| - 1]) * 10 + DigitValue(s[|s| - 1])
  }

  lemma {:induction false} ParseDecimalOfDecimal(n: nat)
    ensures ParseDecimal(Decimal(n)) == n
  {
    if n >= 10 {
      var s := Decimal(n);
      assert s[..|s| - 1] == Decimal(n / 10);
      ParseDecimalOfDecimal(n / 10);
    }
  }

  /** `build_schema_name(epoch)`. */
  function SchemaName(epoch: Epoch): (name: string)
    ensures IsEpochSchemaName(name)
  {
    EpochSchemaPrefix + Decimal(epoch)
  }

  /** The pattern `^<prefix>[0-9]+$` the range lookup selects schemas by. */
  predicate IsEpochSchemaName(name: string)
  {
    |name| > |EpochSchemaPrefix|
    && name[..|EpochSchemaPrefix|] == EpochSchemaPrefix
    && AllDigits(name[|EpochSchemaPrefix|..])
  }

  /** `parse_epoch_from_schema_name(name)`. */
  function ParseEpoch(name: string): Epoch
    requires IsEpochSchemaName(name)
  {
    ParseDecimal(name[|EpochSchemaPrefix|..])
  }

  /** Parsing a built schema name gives back its epoch. */
  lemma ParseEpochOfSchemaName(epoch: Epoch)
    ensures ParseEpoch(SchemaName(epoch)) == epoch
  {
    var name := SchemaName(epoch);
    assert name[|EpochSchemaPrefix|..] == Decimal(epoch);
    ParseDecimalOfDecimal(epoch);
  }

  /** `build_schema_name` is injective: distinct epochs never share a schema. */
  lemma SchemaNameInjective(e1: Epoch, e2: Epoch)
    ensures SchemaName(e1) == SchemaName(e2) ==> e1 == e2
  {
    ParseEpochOfSchemaName(e1);
    ParseEpochOfSchemaName(e2);
  }
}
