/** The three-level cascading region selector (province, city/district,
    sub-district). It parses an incoming composed place string positionally
    and emits a composed string on every change. The region table is a
    parameter. */
module RegionSelector {
  import opened Js

  /** province -> city -> sub-districts */
  type Regions = map<string, map<string, seq<string>>>

  /** The three selected levels; `""` means "nothing selected". */
  datatype Selection = Selection(province: string, city: string, district: string)

  /** `s.split(' ')`: the pieces between single spaces, empty pieces included. */
  function Split(s: string): (parts: seq<string>)
    ensures |parts| >= 1
    ensures forall i :: 0 <= i < |parts| ==> ' ' !in parts[i]
  {
    if s == [] then [""]
    else
      var rest := Split(s[1..]);
      if s[0] == ' ' then [""] + rest
      else [[s[0]] + rest[0]] + rest[1..]
  }

  /** `parts.join(' ')` */
  function JoinSpace(parts: seq<string>): string
    requires |parts| >= 1
  {
    if |parts| == 1 then parts[0] else parts[0] + " " + JoinSpace(parts[1..])
  }

  /** Splitting loses nothing: joining the pieces with single spaces gives the string back. */
  lemma {:induction false} JoinSplit(s: string)
    ensures JoinSpace(Split(s)) == s
  {
    if s != [] {
      var rest := Split(s[1..]);
      JoinSplit(s[1..]);
      if s[0] == ' ' {
        assert ([""] + rest)[1..] == rest;
        assert s == " " + s[1..];
      } else {
        var parts := [[s[0]] + rest[0]] + rest[1..];
        if |rest| == 1 {
          assert s == [s[0]] + rest[0];
        } else {
          assert parts[1..] == rest[1..];
          assert s == [s[0]] + (rest[0] + " " + JoinSpace(rest[1..]));
        }
      }
    }
  }

  /** `.filter(p => p)` */
  function NonEmpty(parts: seq<string>): (r: seq<string>)
    ensures |r| <= |parts|
    ensures forall i :: 0 <= i < |r| ==> r[i] != ""
  {
    if parts == [] then []
    else (if parts[0] == "" then [] else [parts[0]]) + NonEmpty(parts[1..])
  }

  /** `value.split(' ').filter(p => p)`: the non-empty, space-free words of the value. */
  function Parts(value: string): (r: seq<string>)
    ensures forall i :: 0 <= i < |r| ==> r[i] != "" && ' ' !in r[i]
  {
    var split := Split(value);
    NonEmptyKeepsSpaceFree(split);
    NonEmpty(split)
  }

  lemma {:induction false} NonEmptyKeepsSpaceFree(parts: seq<string>)
    requires forall i :: 0 <= i < |parts| ==> ' ' !in parts[i]
    ensures forall i :: 0 <= i < |NonEmpty(parts)| ==> ' ' !in NonEmpty(parts)[i]
  {
    if parts != [] {
      NonEmptyKeepsSpaceFree(parts[1..]);
    }
  }

  lemma {:induction false} NonEmptyOfWords(parts: seq<string>)
    requires forall i :: 0 <= i < |parts| ==> parts[i] != ""
    ensures NonEmpty(parts) == parts
  {
    if parts != [] {
      NonEmptyOfWords(parts[1..]);
    }
  }

  lemma {:induction false} SplitWord(a: string)
    requires ' ' !in a
    ensures Split(a) == [a]
  {
    if a != [] {
      SplitWord(a[1..]);
      assert a == [a[0]] + a[1..];
    }
  }

  lemma {:induction false} SplitWordThen(a: string, b: string)
    requires ' ' !in a
    ensures Split(a + " " + b) == [a] + Split(b)
  {
    if a == [] {
      assert a + " " + b == " " + b;
      assert (" " + b)[1..] == b;
    } else {
      var s := a + " " + b;
      assert s[0] == a[0] && s[1..] == a[1..] + " " + b;
      SplitWordThen(a[1..], b);
      assert a == [a[0]] + a[1..];
    }
  }

  /** The parse effect: a falsy value clears all three levels; otherwise the
      words are assigned to the levels in order, a level with no word keeps
      its value, and words past the third are ignored. */
  function ParseValue(s: Selection, value: Option<string>): (r: Selection)
    ensures !Truthy(value) ==> r == Selection("", "", "")
    ensures Truthy(value) ==>
      var parts := Parts(value.value);
      && r.province == (if |parts| >= 1 then parts[0] else s.province)
      && r.city == (if |parts| >= 2 then parts[1] else s.city)
      && r.district == (if |parts| >= 3 then parts[2] else s.district)
  {
    if Truthy(value) then
      var parts := Parts(value.value);
      if |parts| >= 1 then
        var s1 := s.(province := parts[0]);
        if |parts| >= 2 then
          var s2 := s1.(city := parts[1]);
          if |parts| >= 3 then s2.(district := parts[2]) else s2
        else s1
      else s
    else Selection("", "", "")
  }

  /** The place emitted on a city change. */
  function CityPlace(province: string, city: string): string {
    if province != "" then province + " " + city else city
  }

  /** The place emitted on a sub-district change. */
  function DistrictPlace(province: string, city: string, district: string): string {
    if province != "" && city != "" then province + " " + city + " " + district
    else if province != "" then province + " " + district
    else district
  }

  /** A word: what a select option must be for its place string to parse back. */
  predicate IsWord(w: string) {
    w != "" && ' ' !in w
  }

  /** Selecting P, C and D emits `"P C D"`, which parses back to exactly
      (P, C, D) whatever was selected before. */
  lemma DistrictPlaceRoundTrip(before: Selection, p: string, c: string, d: string)
    requires IsWord(p) && IsWord(c) && IsWord(d)
    ensures ParseValue(before, Some(DistrictPlace(p, c, d))) == Selection(p, c, d)
  {
    var place := DistrictPlace(p, c, d);
    assert place == p + " " + (c + " " + d);
    SplitWordThen(p, c + " " + d);
    SplitWordThen(c, d);
    SplitWord(d);
    assert Split(place) == [p, c, d];
    NonEmptyOfWords([p, c, d]);
  }

  /** After a city change the emitted `"P C"` parses back to the state the change left. */
  lemma CityPlaceRoundTrip(p: string, c: string)
    requires IsWord(p) && IsWord(c)
    ensures ParseValue(Selection(p, c, ""), Some(CityPlace(p, c))) == Selection(p, c, "")
  {
    SplitWordThen(p, c);
    SplitWord(c);
    assert Split(CityPlace(p, c)) == [p, c];
    NonEmptyOfWords([p, c]);
  }

  /** After a province change the emitted province parses back to the state
      the change left; choosing the empty option clears everything either way. */
  lemma ProvincePlaceRoundTrip(p: string)
    requires p == "" || IsWord(p)
    ensures ParseValue(Selection(p, "", ""), Some(p)) == Selection(p, "", "")
  {
    if p != "" {
      SplitWord(p);
      NonEmptyOfWords([p]);
    }
  }

  /** The options of the city select: the cities of the selected province. */
  function CityOptions(table: Regions, s: Selection): (r: set<string>)
    ensures s.province == "" || s.province !in table ==> r == {}
    ensures s.province != "" && s.province in table ==> r == table[s.province].Keys
  {
    if s.province != "" && s.province in table then table[s.province].Keys else {}
  }

  /** The options of the sub-district select: the sub-districts of the selected city. */
  function DistrictOptions(table: Regions, s: Selection): (r: seq<string>)
    ensures !(s.province != "" && s.city != "" && s.province in table && s.city in table[s.province]) ==> r == []
    ensures s.province != "" && s.city != "" && s.province in table && s.city in table[s.province] ==>
      r == table[s.province][s.city]
  {
    if s.province != "" && s.city != "" && s.province in table && s.city in table[s.province]
    then table[s.province][s.city]
    else []
  }

  /** `disabled={!selectedDo}` */
  predicate CityDisabled(s: Selection) {
    s.province == ""
  }

  /** `disabled={!selectedSi}` */
  predicate DistrictDisabled(s: Selection) {
    s.city == ""
  }

  /** A disabled select never has options to offer. */
  lemma DisabledSelectsAreEmpty(table: Regions, s: Selection)
    ensures CityDisabled(s) ==> CityOptions(table, s) == {}
    ensures DistrictDisabled(s) ==> DistrictOptions(table, s) == []
  {
  }

  class Selector {
    const table: Regions
    const hasOnChange: bool
    var selectedDo: string
    var selectedSi: string
    var selectedDong: string

    function Current(): Selection
      reads this
    {
      Selection(selectedDo, selectedSi, selectedDong)
    }

    constructor (table: Regions, hasOnChange: bool)
      ensures this.table == table && this.hasOnChange == hasOnChange
      ensures Current() == Selection("", "", "")
    {
      this.table := table;
      this.hasOnChange := hasOnChange;
      selectedDo, selectedSi, selectedDong := "", "", "";
    }

    /** The effect that runs when the `value` prop changes. */
    method ApplyValue(value: Option<string>)
      modifies this`selectedDo, this`selectedSi, this`selectedDong
      ensures Current() == ParseValue(old(Current()), value)
    {
      if value.Some? && value.value != "" {
        var parts := Parts(value.value);
        if |parts| >= 1 {
          selectedDo := parts[0];
          if |parts| >= 2 {
            selectedSi := parts[1];
            if |parts| >= 3 {
              selectedDong := parts[2];
            }
          }
        }
      } else {
        selectedDo := "";
        selectedSi := "";
        selectedDong := "";
      }
    }

    /** `handleDoChange`: a new province clears both lower levels and emits the province. */
    method HandleDoChange(doValue: string) returns (emitted: Option<string>)
      modifies this`selectedDo, this`selectedSi, this`selectedDong
      ensures Current() == Selection(doValue, "", "")
      ensures emitted == if hasOnChange then Some(doValue) else None
    {
      selectedDo := doValue;
      selectedSi := "";
      selectedDong := "";
      emitted := if hasOnChange then Some(if doValue != "" then doValue else "") else None;
    }

    /** `handleSiChange`: a new city clears the sub-district and emits `"P C"`, or `C` without a province. */
    method HandleSiChange(siValue: string) returns (emitted: Option<string>)
      modifies this`selectedSi, this`selectedDong
      ensures Current() == Selection(old(selectedDo), siValue, "")
      ensures emitted == if hasOnChange then Some(CityPlace(old(selectedDo), siValue)) else None
    {
      var province := selectedDo;
      selectedSi := siValue;
      selectedDong := "";
      emitted := None;
      if hasOnChange {
        var place := if province != "" then province + " " + siValue else siValue;
        emitted := Some(place);
      }
    }

    /** `handleDongChange`: emits `"P C D"`, `"P D"` or `D`, depending on which levels are set. */
    method HandleDongChange(dongValue: string) returns (emitted: Option<string>)
      modifies this`selectedDong
      ensures Current() == old(Current()).(district := dongValue)
      ensures emitted == if hasOnChange then Some(DistrictPlace(old(selectedDo), old(selectedSi), dongValue)) else None
    {
      var province, city := selectedDo, selectedSi;
      selectedDong := dongValue;
      emitted := None;
      if hasOnChange {
        var place := if province != "" && city != "" then province + " " + city + " " + dongValue
          else if province != "" then province + " " + dongValue
          else dongValue;
        emitted := Some(place);
      }
    }

    /** `siList` */
    function SiList(): set<string>
      reads this
    {
      CityOptions(table, Current())
    }

    /** `dongList` */
    function DongList(): seq<string>
      reads this
    {
      DistrictOptions(table, Current())
    }
  }
}
