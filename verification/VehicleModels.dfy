/** Model lines and brands of the fleet: which manifest a vehicle is given, and the conversion of
    the retired brands, which must not change it. */
module VehicleModels {
  import opened Prelude

  /** An attribute as stored: absent, a string, or some other type. */
  datatype Attr = Absent | Text(text: string) | Odd

  /** Unset strings are "". */
  datatype Row = Row(make: string, model: string, fuelType: string, vehicleType: string, dataSource: Attr,
                     oemSource: string, certificateId: Attr, modelManifestName: Option<string>)

  datatype Vehicle = Vehicle(id: string, row: Row)

  // ---------------------------------------------------------------------------
  // Normalising
  // ---------------------------------------------------------------------------

  function LowerChar(c: char): char { if 'A' <= c <= 'Z' then (c as int + 32) as char else c }

  function UpperChar(c: char): char { if 'a' <= c <= 'z' then (c as int - 32) as char else c }

  function Lower(s: string): (r: string)
    ensures |r| == |s| && forall i :: 0 <= i < |s| ==> r[i] == LowerChar(s[i])
  {
    if s == "" then "" else [LowerChar(s[0])] + Lower(s[1..])
  }

  predicate Blank(c: char) { c == ' ' || c == '\t' || c == '\r' || c == '\n' || c == 11 as char || c == 12 as char }

  function LeftStrip(s: string): string { if s != "" && Blank(s[0]) then LeftStrip(s[1..]) else s }

  function RightStrip(s: string): string { if s != "" && Blank(s[|s| - 1]) then RightStrip(s[..|s| - 1]) else s }

  function Strip(s: string): string { RightStrip(LeftStrip(s)) }

  function Normalise(s: string): string { Lower(Strip(s)) }

  predicate WhiteSpace(c: char) { c as int in {9, 10, 11, 12, 13, 32} }

  predicate AllBlank(s: string) { forall i :: 0 <= i < |s| ==> WhiteSpace(s[i]) }

  lemma {:induction false} LeftPaddingGoes(pad: string, s: string)
    requires AllBlank(pad)
    ensures LeftStrip(pad + s) == LeftStrip(s)
    decreases |pad|
  {
    if pad == "" {
      assert pad + s == s;
    } else {
      assert (pad + s)[1..] == pad[1..] + s;
      LeftPaddingGoes(pad[1..], s);
    }
  }

  lemma {:induction false} RightPaddingGoes(s: string, pad: string)
    requires AllBlank(pad)
    ensures RightStrip(s + pad) == RightStrip(s)
    decreases |pad|
  {
    if pad == "" {
      assert s + pad == s;
    } else {
      assert (s + pad)[..|s + pad| - 1] == s + pad[..|pad| - 1];
      RightPaddingGoes(s, pad[..|pad| - 1]);
    }
  }

  /** A name between outer blanks, of any of the six kinds and however many, normalises to its
      letters in lower case. */
  lemma PaddingIsIgnored(left: string, name: string, right: string)
    requires AllBlank(left) && AllBlank(right)
    requires name != "" ==> !WhiteSpace(name[0]) && !WhiteSpace(name[|name| - 1])
    ensures Normalise(left + (name + right)) == Lower(name)
  {
    PaddedOnTheLeft(left, name + right);
    if name == "" { BlanksStay(right); } else { NameStays(name, right); }
  }

  lemma BlanksStay(pad: string)
    requires AllBlank(pad)
    ensures Strip("" + pad) == ""
  {
    assert "" + pad == pad;
    BlanksGo(pad);
  }

  lemma PaddedOnTheLeft(left: string, rest: string)
    requires AllBlank(left)
    ensures Strip(left + rest) == Strip(rest)
  {
    LeftPaddingGoes(left, rest);
  }

  lemma NameStays(name: string, right: string)
    requires AllBlank(right) && name != "" && !WhiteSpace(name[0]) && !WhiteSpace(name[|name| - 1])
    ensures Strip(name + right) == name
  {
    EndsStay(name, right);
    RightPaddingGoes(name, right);
  }

  lemma BlanksGo(pad: string)
    requires AllBlank(pad)
    ensures Strip(pad) == "" && Lower("") == ""
  {
    LeftPaddingGoes(pad, "");
    assert pad + "" == pad;
  }

  lemma EndsStay(name: string, right: string)
    requires name != "" && !WhiteSpace(name[0]) && !WhiteSpace(name[|name| - 1])
    ensures LeftStrip(name + right) == name + right && RightStrip(name) == name
  {
    assert (name + right)[0] == name[0];
  }

  /** First character upper, the rest lower. */
  function Capitalize(s: string): string { if s == "" then "" else [UpperChar(s[0])] + Lower(s[1..]) }

  // ---------------------------------------------------------------------------
  // The lookup tables
  // ---------------------------------------------------------------------------

  const PREFIX := "MERIDIAN-"

  function ExplicitManifest(id: string): Option<string> {
    if id in ["VEH-1780003031", "VEH-1780081115", "VEH-DEMO-PUB-005", "VEH-DEMO-PUB-004"] then Some(PREFIX + "AZIMUTH")
    else if id in ["VEH-DEMO-PUB-001", "VEH-DEMO-PUB-002", "VEH-VO-001"] then Some(PREFIX + "CRESTWIND")
    else if id == "VEH-DEMO-PUB-003" then Some(PREFIX + "ZEPHYR")
    else if id == "VEH-ENT-001" then Some(PREFIX + "MISTRAL")
    else if id == "VEH-MICH-001" then Some(PREFIX + "SIROCCO")
    else if id == "VEH-MRDN-0015" then Some(PREFIX + "TRAILWIND")
    else None
  }

  /** The model each of the named vehicles is given along with the make Meridian. */
  function BrandConversion(id: string): Option<string> {
    if id in ["VEH-1780003031", "VEH-1780081115", "VEH-DEMO-PUB-005", "VEH-DEMO-PUB-004"] then Some("Azimuth")
    else if id in ["VEH-DEMO-PUB-001", "VEH-DEMO-PUB-002", "VEH-VO-001"] then Some("Crestwind")
    else if id == "VEH-DEMO-PUB-003" then Some("Zephyr")
    else if id == "VEH-ENT-001" then Some("Mistral")
    else if id == "VEH-MICH-001" then Some("Sirocco")
    else if id == "VEH-MRDN-0015" then Some("Trailwind")
    else None
  }

  function LineManifest(model: string): Option<string> {
    if model == "windrose" then Some(PREFIX + "WINDROSE")
    else if model == "trailwind" then Some(PREFIX + "TRAILWIND")
    else if model == "crestwind" then Some(PREFIX + "CRESTWIND")
    else if model == "zephyr" then Some(PREFIX + "ZEPHYR")
    else if model == "azimuth" then Some(PREFIX + "AZIMUTH")
    else if model == "sirocco" then Some(PREFIX + "SIROCCO")
    else if model == "mistral" then Some(PREFIX + "MISTRAL")
    else None
  }

  datatype Profile = Ev | Hybrid | Gasoline | Diesel

  function ProfileOf(fuel: string): Option<Profile> {
    if fuel == "electric" then Some(Ev)
    else if fuel == "hybrid" then Some(Hybrid)
    else if fuel == "gasoline" then Some(Gasoline)
    else if fuel == "diesel" then Some(Diesel)
    else None
  }

  function BodyManifest(body: string, profile: Profile): Option<string> {
    if body != "suv" && body != "sedan" && body != "van" && body != "pickup" then None
    else
      match profile
      case Hybrid => Some(PREFIX + "AZIMUTH")
      case Gasoline => Some(PREFIX + "MISTRAL")
      case Diesel => Some(PREFIX + "SIROCCO")
      case Ev =>
        if body == "suv" then Some(PREFIX + "TRAILWIND")
        else if body == "sedan" then Some(PREFIX + "CRESTWIND")
        else if body == "van" then Some(PREFIX + "ZEPHYR")
        else Some(PREFIX + "WINDROSE")
  }

  // ---------------------------------------------------------------------------
  // Assignment and conversion
  // ---------------------------------------------------------------------------

  function DerivedManifest(row: Row): Option<string> {
    var profile := ProfileOf(Normalise(row.fuelType));
    if profile.None? then None
    else
      var body := Normalise(row.vehicleType);
      if body == "" then if profile.value == Hybrid then Some(PREFIX + "AZIMUTH") else None
      else BodyManifest(body, profile.value)
  }

  function OwnLine(row: Row): Option<string> {
    if Normalise(row.make) == "meridian" then LineManifest(Normalise(row.model)) else None
  }

  function AssignModelLine(id: string, row: Row): Option<string> {
    if ExplicitManifest(id).Some? then ExplicitManifest(id)
    else if OwnLine(row).Some? then OwnLine(row)
    else DerivedManifest(row)
  }

  predicate RetiredMake(make: string) { make == "DemoMotors" || make == "AcmeAuto" }

  function ModelName(manifest: string): string {
    if PREFIX <= manifest then Capitalize(manifest[|PREFIX|..]) else manifest
  }

  function Convert(v: Vehicle): Vehicle {
    if BrandConversion(v.id).Some? then v.(row := v.row.(make := "Meridian", model := BrandConversion(v.id).value))
    else if RetiredMake(v.row.make) then
      var manifest := AssignModelLine(v.id, v.row);
      v.(row := v.row.(make := "Meridian",
                       model := if manifest.Some? && manifest.value != "" then ModelName(manifest.value) else v.row.model))
    else v
  }

  method ConvertFleet(rows: seq<Vehicle>) returns (result: seq<Vehicle>)
    ensures |result| == |rows| && forall i :: 0 <= i < |rows| ==> result[i] == Convert(rows[i])
  {
    result := [];
    for i := 0 to |rows|
      invariant |result| == i && forall j :: 0 <= j < i ==> result[j] == Convert(rows[j])
    {
      var v := rows[i];
      if BrandConversion(v.id).Some? {
        result := result + [v.(row := v.row.(make := "Meridian", model := BrandConversion(v.id).value))];
        continue;
      }
      if RetiredMake(v.row.make) {
        var row := v.row.(make := "Meridian");
        var manifest := AssignModelLine(v.id, v.row);
        if manifest.Some? && manifest.value != "" { row := row.(model := ModelName(manifest.value)); }
        result := result + [v.(row := row)];
        continue;
      }
      result := result + [v];
    }
  }

  // ---------------------------------------------------------------------------
  // The tables agree
  // ---------------------------------------------------------------------------

  ghost predicate IsLine(manifest: string) {
    manifest in [PREFIX + "WINDROSE", PREFIX + "TRAILWIND", PREFIX + "CRESTWIND", PREFIX + "ZEPHYR",
                 PREFIX + "AZIMUTH", PREFIX + "SIROCCO", PREFIX + "MISTRAL"]
  }

  /** A name without outer blanks normalises letter by letter. */
  lemma SettledName(name: string, lower: string)
    requires name != "" && !Blank(name[0]) && !Blank(name[|name| - 1])
    requires |lower| == |name| && forall i :: 0 <= i < |name| ==> LowerChar(name[i]) == lower[i]
    ensures Normalise(name) == lower
  {
    assert LeftStrip(name) == name && RightStrip(name) == name;
  }

  lemma MeridianNormalises()
    ensures Normalise("Meridian") == "meridian"
  {
    SettledName("Meridian", "meridian");
  }

  lemma RetiredIsNotMeridian(make: string)
    requires RetiredMake(make)
    ensures Normalise(make) != "meridian"
  {
    if make == "AcmeAuto" { AcmeAutoNormalises(); } else { DemoMotorsNormalises(); }
  }

  lemma AcmeAutoNormalises()
    ensures Normalise("AcmeAuto") != "meridian"
  {
    SettledName("AcmeAuto", "acmeauto");
    assert "acmeauto"[0] != "meridian"[0];
  }

  lemma DemoMotorsNormalises()
    ensures Normalise("DemoMotors") != "meridian"
  {
    SettledName("DemoMotors", "demomotors");
  }

  /** A line's shown name normalises to the line's own name. */
  lemma ShownName(upper: string, lower: string)
    requires lower != "" && |upper| == |lower|
    requires forall i :: 0 <= i < |lower| ==> 'a' <= lower[i] <= 'z' && upper[i] == UpperChar(lower[i])
    ensures Normalise(ModelName(PREFIX + upper)) == lower
  {
    assert (PREFIX + upper)[|PREFIX|..] == upper && PREFIX <= PREFIX + upper;
    var shown := Capitalize(upper);
    forall i | 0 <= i < |shown| ensures LowerChar(shown[i]) == lower[i] && !Blank(shown[i]) {
      if i > 0 { assert shown[i] == Lower(upper[1..])[i - 1] == LowerChar(upper[i]); }
    }
    SettledName(shown, lower);
  }

  ghost predicate LeadsBack(manifest: string) {
    manifest != "" && LineManifest(Normalise(ModelName(manifest))) == Some(manifest)
  }

  lemma TrailwindLeadsBack()
    ensures LeadsBack(PREFIX + "TRAILWIND")
  {
    ShownName("TRAILWIND", "trailwind");
  }

  lemma CrestwindIsShown()
    ensures Normalise(ModelName(PREFIX + "CRESTWIND")) == "crestwind"
  {
    ShownName("CRESTWIND", "crestwind");
  }

  lemma CrestwindLeadsBack()
    ensures LeadsBack(PREFIX + "CRESTWIND")
  {
    CrestwindIsShown();
  }

  lemma ZephyrLeadsBack()
    ensures LeadsBack(PREFIX + "ZEPHYR")
  {
    ShownName("ZEPHYR", "zephyr");
  }

  lemma WindroseLeadsBack()
    ensures LeadsBack(PREFIX + "WINDROSE")
  {
    ShownName("WINDROSE", "windrose");
  }

  lemma AzimuthLeadsBack()
    ensures LeadsBack(PREFIX + "AZIMUTH")
  {
    ShownName("AZIMUTH", "azimuth");
  }

  lemma SiroccoLeadsBack()
    ensures LeadsBack(PREFIX + "SIROCCO")
  {
    ShownName("SIROCCO", "sirocco");
  }

  lemma MistralIsShown()
    ensures Normalise(ModelName(PREFIX + "MISTRAL")) == "mistral"
  {
    ShownName("MISTRAL", "mistral");
  }

  lemma MistralLeadsBack()
    ensures LeadsBack(PREFIX + "MISTRAL")
  {
    MistralIsShown();
  }

  lemma BodiesLeadBack(body: string, profile: Profile)
    requires BodyManifest(body, profile).Some?
    ensures LeadsBack(BodyManifest(body, profile).value)
  {
    match profile {
      case Hybrid => AzimuthLeadsBack();
      case Gasoline => MistralLeadsBack();
      case Diesel => SiroccoLeadsBack();
      case Ev =>
        if body == "suv" {
          TrailwindLeadsBack();
        } else if body == "sedan" {
          CrestwindLeadsBack();
        } else if body == "van" {
          ZephyrLeadsBack();
        } else {
          WindroseLeadsBack();
        }
    }
  }

  /** The body, brand and line-name tables bring every derived manifest back to itself. */
  lemma NamesLeadBack(row: Row)
    requires DerivedManifest(row).Some?
    ensures LeadsBack(DerivedManifest(row).value)
  {
    var body, profile := Normalise(row.vehicleType), ProfileOf(Normalise(row.fuelType)).value;
    if body == "" { AzimuthLeadsBack(); } else { BodiesLeadBack(body, profile); }
  }

  /** The explicit tables name the same vehicles, and the model each gives is its manifest's line. */
  lemma ExplicitTablesAgree(id: string)
    ensures ExplicitManifest(id).Some? <==> BrandConversion(id).Some?
    ensures BrandConversion(id).Some? ==> LineManifest(Normalise(BrandConversion(id).value)) == ExplicitManifest(id)
  {
    if id in ["VEH-1780003031", "VEH-1780081115", "VEH-DEMO-PUB-005", "VEH-DEMO-PUB-004"] {
      AzimuthIsListed();
    } else if id in ["VEH-DEMO-PUB-001", "VEH-DEMO-PUB-002", "VEH-VO-001"] {
      CrestwindIsListed();
    } else if id == "VEH-DEMO-PUB-003" {
      ZephyrIsListed();
    } else if id == "VEH-ENT-001" {
      MistralIsListed();
    } else if id == "VEH-MICH-001" {
      SiroccoIsListed();
    } else {
      TrailwindIsListed();
    }
  }

  lemma AzimuthIsListed()
    ensures LineManifest(Normalise("Azimuth")) == Some(PREFIX + "AZIMUTH")
  {
    SettledName("Azimuth", "azimuth");
  }

  lemma CrestwindIsListed()
    ensures LineManifest(Normalise("Crestwind")) == Some(PREFIX + "CRESTWIND")
  {
    SettledName("Crestwind", "crestwind");
  }

  lemma ZephyrIsListed()
    ensures LineManifest(Normalise("Zephyr")) == Some(PREFIX + "ZEPHYR")
  {
    SettledName("Zephyr", "zephyr");
  }

  lemma MistralIsListed()
    ensures LineManifest(Normalise("Mistral")) == Some(PREFIX + "MISTRAL")
  {
    SettledName("Mistral", "mistral");
  }

  lemma SiroccoIsListed()
    ensures LineManifest(Normalise("Sirocco")) == Some(PREFIX + "SIROCCO")
  {
    SettledName("Sirocco", "sirocco");
  }

  lemma TrailwindIsListed()
    ensures LineManifest(Normalise("Trailwind")) == Some(PREFIX + "TRAILWIND")
  {
    SettledName("Trailwind", "trailwind");
  }

  // ---------------------------------------------------------------------------
  // Main results
  // ---------------------------------------------------------------------------

  const LINES := {"windrose", "trailwind", "crestwind", "zephyr", "azimuth", "sirocco", "mistral"}

  /** A Meridian whose model names a line keeps that line, whatever its fuel and body say, unless the
      explicit table has the vehicle. */
  lemma OwnLineComesFirst(id: string, row: Row)
    requires ExplicitManifest(id).None? && Normalise(row.make) == "meridian" && Normalise(row.model) in LINES
    ensures AssignModelLine(id, row) == LineManifest(Normalise(row.model)) && LineManifest(Normalise(row.model)).Some?
  {}

  lemma TableComesBeforeAll(id: string, row: Row)
    requires ExplicitManifest(id).Some?
    ensures AssignModelLine(id, row) == ExplicitManifest(id)
  {}

  /** The line fuel and body give: a hybrid is an Azimuth with any known body or none, petrol and
      diesel vehicles have one line each, electric ones a line for each body. */
  function LineOf(fuel: string, body: string): Option<string> {
    if fuel == "hybrid" && body in {"", "suv", "sedan", "van", "pickup"} then Some(PREFIX + "AZIMUTH")
    else if body !in {"suv", "sedan", "van", "pickup"} then None
    else if fuel == "gasoline" then Some(PREFIX + "MISTRAL")
    else if fuel == "diesel" then Some(PREFIX + "SIROCCO")
    else if fuel == "electric" then
      Some(if body == "suv" then PREFIX + "TRAILWIND" else if body == "sedan" then PREFIX + "CRESTWIND"
           else if body == "van" then PREFIX + "ZEPHYR" else PREFIX + "WINDROSE")
    else None
  }

  /** Any other vehicle's line depends on its fuel and body alone. */
  lemma FuelAndBodyDecide(id: string, row: Row)
    requires ExplicitManifest(id).None? && (Normalise(row.make) != "meridian" || Normalise(row.model) !in LINES)
    ensures AssignModelLine(id, row) == LineOf(Normalise(row.fuelType), Normalise(row.vehicleType))
  {
    DerivedExactly(Normalise(row.fuelType), Normalise(row.vehicleType));
  }

  lemma DerivedExactly(fuel: string, body: string)
    ensures (var profile := ProfileOf(fuel);
             if profile.None? then None
             else if body == "" then if profile.value == Hybrid then Some(PREFIX + "AZIMUTH") else None
             else BodyManifest(body, profile.value)) == LineOf(fuel, body)
  {}

  /** Conversion by brand, of a vehicle the explicit tables do not name. */
  predicate ByBrand(v: Vehicle) { ExplicitManifest(v.id).None? && RetiredMake(v.row.make) }

  /** Conversion keeps the assignment, except of a retired-brand vehicle no rule derives a line for
      but whose model happens to name one: becoming a Meridian gives it that line. */
  lemma ConversionKeepsTheLine(v: Vehicle)
    ensures AssignModelLine(v.id, Convert(v).row) == AssignModelLine(v.id, v.row) <==>
              !(ByBrand(v) && DerivedManifest(v.row).None? && LineManifest(Normalise(v.row.model)).Some?)
    ensures Convert(v).id == v.id
  {
    ExplicitTablesAgree(v.id);
    if ByBrand(v) {
      RetiredIsNotMeridian(v.row.make);
      MeridianNormalises();
      if DerivedManifest(v.row).Some? { NamesLeadBack(v.row); }
    }
  }

  lemma ShortIdsAreNotNamed(id: string)
    requires |id| < 10
    ensures ExplicitManifest(id).None?
  {
    assert |"VEH-1780003031"| >= 10 && |"VEH-VO-001"| >= 10;
  }

  /** One such: an unassigned DemoMotors called Windrose is a MERIDIAN-WINDROSE once converted. */
  lemma ConvertedWindroseGainsALine(id: string)
    requires |id| < 10
    ensures var v := Vehicle(id, Row("DemoMotors", "Windrose", "", "", Absent, "", Absent, None));
            AssignModelLine(id, v.row).None? && AssignModelLine(id, Convert(v).row) == Some(PREFIX + "WINDROSE")
  {
    var row := Row("DemoMotors", "Windrose", "", "", Absent, "", Absent, None);
    ShortIdsAreNotNamed(id);
    UnassignedWindrose(row);
    WindroseIsListed();
    ConversionKeepsTheLine(Vehicle(id, row));
    ExplicitTablesAgree(id);
    ConvertedWindrose(row.(make := "Meridian"));
  }

  lemma UnassignedWindrose(row: Row)
    requires row.make == "DemoMotors" && row.fuelType == ""
    ensures OwnLine(row).None? && DerivedManifest(row).None?
  {
    DemoMotorsNormalises();
    assert Normalise("") == "";
  }

  lemma ConvertedWindrose(row: Row)
    requires row.make == "Meridian" && row.model == "Windrose"
    ensures OwnLine(row) == Some(PREFIX + "WINDROSE")
  {
    MeridianNormalises();
    WindroseIsListed();
  }

  lemma WindroseIsListed()
    ensures LineManifest(Normalise("Windrose")) == Some(PREFIX + "WINDROSE")
  {
    SettledName("Windrose", "windrose");
  }

  /** So it keeps every assignment there is. */
  lemma DefinedLinesAreKept(v: Vehicle)
    requires AssignModelLine(v.id, v.row).Some?
    ensures AssignModelLine(v.id, Convert(v).row) == AssignModelLine(v.id, v.row)
  {
    ConversionKeepsTheLine(v);
    if ByBrand(v) { RetiredIsNotMeridian(v.row.make); }
  }

  /** Who is converted, and to what: make and model change, nothing else, and only of the vehicles
      listed by id and of the retired brands. */
  lemma ConvertedExactly(v: Vehicle)
    ensures var row := Convert(v).row;
            && row == v.row.(make := row.make, model := row.model)
            && (BrandConversion(v.id).Some? ==> row.make == "Meridian" && row.model == BrandConversion(v.id).value)
            && (BrandConversion(v.id).None? && v.row.make in {"DemoMotors", "AcmeAuto"} ==>
                  && row.make == "Meridian"
                  && row.model == (if AssignModelLine(v.id, v.row).Some? then ModelName(AssignModelLine(v.id, v.row).value) else v.row.model))
            && (BrandConversion(v.id).None? && v.row.make !in {"DemoMotors", "AcmeAuto"} ==> row == v.row)
  {
    ExplicitTablesAgree(v.id);
    if BrandConversion(v.id).None? && RetiredMake(v.row.make) {
      RetiredIsNotMeridian(v.row.make);
      if DerivedManifest(v.row).Some? { NamesLeadBack(v.row); }
    }
  }

  lemma ConversionIsIdempotent(v: Vehicle)
    ensures Convert(Convert(v)) == Convert(v) && Convert(v).row.make !in {"DemoMotors", "AcmeAuto"}
    ensures v.row.make == "Ford" && ExplicitManifest(v.id).None? ==> Convert(v) == v
  {
    ExplicitTablesAgree(v.id);
  }

  /** The whole converted fleet: same vehicles in the same order, no retired brand left, every
      assignment kept, and converting again changes nothing. */
  lemma FleetConversion(rows: seq<Vehicle>, result: seq<Vehicle>)
    requires |result| == |rows| && forall i :: 0 <= i < |rows| ==> result[i] == Convert(rows[i])
    ensures forall i :: 0 <= i < |rows| ==>
              && result[i].id == rows[i].id && result[i].row.make !in {"DemoMotors", "AcmeAuto"} && Convert(result[i]) == result[i]
              && (AssignModelLine(rows[i].id, rows[i].row).Some? ==>
                    AssignModelLine(rows[i].id, result[i].row) == AssignModelLine(rows[i].id, rows[i].row))
  {
    forall i | 0 <= i < |rows|
      ensures && result[i].id == rows[i].id && result[i].row.make !in {"DemoMotors", "AcmeAuto"} && Convert(result[i]) == result[i]
              && (AssignModelLine(rows[i].id, rows[i].row).Some? ==>
                    AssignModelLine(rows[i].id, result[i].row) == AssignModelLine(rows[i].id, rows[i].row))
    {
      ConversionIsIdempotent(rows[i]);
      if AssignModelLine(rows[i].id, rows[i].row).Some? { DefinedLinesAreKept(rows[i]); }
    }
  }
}
