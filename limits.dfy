/** The extreme values `std::numeric_limits` gives for the C++ types the records use.
    Integer fields keep their C++ range through subset types; `double` fields are
    modelled as (finite) reals. */
module Limits {

  /** numeric_limits<int>::min() and ::max() for a 32-bit int. */
  const INT_MIN: int := -0x8000_0000
  const INT_MAX: int := 0x7FFF_FFFF

  /** numeric_limits<uint32_t>::max() and numeric_limits<uint64_t>::max();
      the minimum of both unsigned types is 0. */
  const UINT32_MAX: int := 0xFFFF_FFFF
  const UINT64_MAX: int := 0xFFFF_FFFF_FFFF_FFFF

  /** numeric_limits<double>::max(), the largest finite double, (2 - 2^-52) * 2^1023. */
  const DBL_MAX: real := 179769313486231570814527423731704356798070567525844996598917476803157260780028538760589558632766878171540458953514382464234321326889464182768467546703537516986049910576551282076245490090389328944075868508455133942304583236903222948165808559332123348274797826204144723168738177180919299881250404026184124858368.0

  /** 2^1022, used to write DBL_MIN exactly. */
  const TWO_POW_1022: real := 44942328371557897693232629769725618340449424473557664318357520289433168951375240783177119330601884005280028469967848339414697442203604155623211857659868531094441973356216371319075554900311523529863270738021251442209537670585615720368478277635206809290837627671146574559986811484619929076208839082406056034304.0

  /** numeric_limits<double>::min(): the smallest POSITIVE normalised double, 2^-1022.
      It is not the most negative double (that would be -DBL_MAX). */
  const DBL_MIN: real := 1.0 / TWO_POW_1022

  type Int32 = x: int | INT_MIN <= x <= INT_MAX
  type UInt32 = x: int | 0 <= x <= UINT32_MAX
  type UInt64 = x: int | 0 <= x <= UINT64_MAX

  /** The two double sentinels bracket zero: 0 < DBL_MIN < 1 < DBL_MAX. */
  lemma DoubleSentinels()
    ensures 0.0 < DBL_MIN < 1.0 < DBL_MAX
  {
    assert TWO_POW_1022 > 1.0;
    assert DBL_MIN * TWO_POW_1022 == 1.0;
  }

  /** A double is finite when it lies between the most negative and the largest finite double. */
  predicate IsFiniteDouble(x: real) {
    -DBL_MAX <= x <= DBL_MAX
  }
}

/** The enumerations of the source's `Const` namespace that the records use. Only the
    enumerators the records refer to are listed. */
module Const {

  /** The sentinel mode a record is constructed with. A C++ enum can hold a value that is
      none of its enumerators; `Unlisted` stands for any such value. */
  datatype Init = Minimize | Maximize | Unlisted(code: int)

  /** Which generator sub-event the hard-scatter partons are read from. */
  datatype SubEvt = EmbedSignal | NotEmbedSignal

  /** Which of the two incoming hard-scatter partons is read. */
  datatype HardScatterStatus = First | Second

  /** Which final-state particles are counted or summed. */
  datatype Subset = Charged | Neutral
}
