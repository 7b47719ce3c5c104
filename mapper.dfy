/**
  `FamilyMetadataMapper` and `ParameterMapper`: conversions between the family and
  parameter models and their transfer objects, with null-coalescing of absent values.
 */
module Mapper {
  import opened Wrappers
  import opened Family

  /** The parameter transfer object; unit, description and default value may be null. */
  datatype ParameterDTO = ParameterDTO(
    name: string,
    paramType: string,
    unit: Option<string>,
    required: bool,
    description: Option<string>,
    defaultValue: Option<Value>)

  /** The family transfer object; the two lists and the three optional strings may be null. */
  datatype FamilyMetadataDTO = FamilyMetadataDTO(
    id: string,
    name: string,
    category: string,
    tags: Option<seq<string>>,
    parameters: Option<seq<ParameterDTO>>,
    description: Option<string>,
    previewImagePath: Option<string>,
    createdBy: Option<string>,
    lastModified: Timestamp)

  /** `ToDictionary` throws `ArgumentException` on a repeated key. */
  datatype MapperError = DuplicateKey(key: string)

  /** `ParameterMapper.ToDTO`: copies all six fields. */
  function ParameterToDTO(model: Parameter): (r: ParameterDTO)
    ensures r.name == model.name && r.paramType == model.paramType && r.required == model.required
    ensures r.unit == model.unit && r.description == model.description && r.defaultValue == model.defaultValue
  {
    ParameterDTO(model.name, model.paramType, model.unit, model.required, model.description, model.defaultValue)
  }

  /** `ParameterMapper.ToModel`: copies name, type, required flag and default value; a null unit or description becomes "". */
  function ParameterToModel(dto: ParameterDTO): (r: Parameter)
    ensures r.name == dto.name && r.paramType == dto.paramType && r.required == dto.required
    ensures r.defaultValue == dto.defaultValue
    ensures r.unit == Some(dto.unit.GetOr("")) && r.description == Some(dto.description.GetOr(""))
  {
    Parameter(dto.name, dto.paramType, Some(dto.unit.GetOr("")), dto.required, Some(dto.description.GetOr("")), dto.defaultValue)
  }

  /** Model to transfer object and back is the identity when unit and description are present. */
  lemma ParameterModelRoundTrip(model: Parameter)
    requires model.unit.Some? && model.description.Some?
    ensures ParameterToModel(ParameterToDTO(model)) == model
  {
  }

  /** Transfer object to model and back is the identity when unit and description are present. */
  lemma ParameterDTORoundTrip(dto: ParameterDTO)
    requires dto.unit.Some? && dto.description.Some?
    ensures ParameterToDTO(ParameterToModel(dto)) == dto
  {
  }

  /** The names of a list of parameter transfer objects are pairwise distinct. */
  predicate UniqueNames(dtos: seq<ParameterDTO>) {
    forall i, j :: 0 <= i < j < |dtos| ==> dtos[i].name != dtos[j].name
  }

  /**
    `dtos.ToDictionary(p => p.Name, ParameterMapper.ToModel)`: one entry per element
    in list order, keyed by its name; the first repeated name throws.
   */
  function ToParameterDictionary(dtos: seq<ParameterDTO>): (r: Result<Parameters, MapperError>)
    ensures r.Ok? <==> UniqueNames(dtos)
    ensures r.Ok? ==> |r.value| == |dtos| && UniqueKeys(r.value)
    ensures r.Ok? ==> forall i :: 0 <= i < |dtos| ==> r.value[i] == (dtos[i].name, ParameterToModel(dtos[i]))
    decreases |dtos|
  {
    if dtos == [] then Ok([])
    else
      var init := dtos[..|dtos| - 1];
      var last := dtos[|dtos| - 1];
      match ToParameterDictionary(init)
      case Err(e) => Err(e)
      case Ok(ps) =>
        if exists i :: 0 <= i < |init| && init[i].name == last.name then Err(DuplicateKey(last.name))
        else Ok(ps + [(last.name, ParameterToModel(last))])
  }

  /** The DTO's parameter list: `Parameters.Values.Select(ParameterMapper.ToDTO)`, in dictionary order. */
  function ParametersToDTOs(ps: Parameters): (r: seq<ParameterDTO>)
    ensures |r| == |ps|
    ensures forall i :: 0 <= i < |ps| ==> r[i] == ParameterToDTO(ps[i].1)
  {
    seq(|ps|, i requires 0 <= i < |ps| => ParameterToDTO(ps[i].1))
  }

  /**
    `FamilyMetadataMapper.ToDTO`: copies the scalar and optional fields unchanged
    (absent stays absent); absent tags or parameters become empty lists.
   */
  function ToDTO(model: FamilyMetadata): (r: FamilyMetadataDTO)
    ensures r.id == model.id && r.name == model.name && r.category == model.category
    ensures r.description == model.description && r.previewImagePath == model.previewImagePath
    ensures r.createdBy == model.createdBy && r.lastModified == model.lastModified
    ensures r.tags == Some(model.tags.GetOr([]))
    ensures r.parameters.Some? && |r.parameters.value| == |model.parameters.GetOr([])|
    ensures forall i :: 0 <= i < |model.parameters.GetOr([])| ==>
      r.parameters.value[i] == ParameterToDTO(model.parameters.GetOr([])[i].1)
  {
    FamilyMetadataDTO(
      model.id, model.name, model.category,
      Some(model.tags.GetOr([])),
      Some(ParametersToDTOs(model.parameters.GetOr([]))),
      model.description, model.previewImagePath, model.createdBy, model.lastModified)
  }

  /**
    `FamilyMetadataMapper.ToModel`, as written: absent tags or parameters become
    empty, absent description, preview path and creator become ""; the parameter
    dictionary is keyed by each parameter's name, and a repeated name fails.
   */
  function ToModel(dto: FamilyMetadataDTO): (r: Result<FamilyMetadata, MapperError>)
    ensures r.Ok? <==> UniqueNames(dto.parameters.GetOr([]))
    ensures r.Ok? ==> r.value.id == dto.id && r.value.name == dto.name && r.value.category == dto.category
    ensures r.Ok? ==> r.value.lastModified == dto.lastModified && r.value.tags == Some(dto.tags.GetOr([]))
    ensures r.Ok? ==>
      (r.value.description == Some(dto.description.GetOr(""))
       && r.value.previewImagePath == Some(dto.previewImagePath.GetOr(""))
       && r.value.createdBy == Some(dto.createdBy.GetOr("")))
    ensures r.Ok? ==>
      (r.value.parameters.Some? && UniqueKeys(r.value.parameters.value)
       && forall i :: 0 <= i < |r.value.parameters.value| ==> r.value.parameters.value[i].0 == r.value.parameters.value[i].1.name)
  {
    match ToParameterDictionary(dto.parameters.GetOr([]))
    case Err(e) => Err(e)
    case Ok(ps) =>
      Ok(FamilyMetadata(
        dto.id, dto.name, dto.category,
        Some(dto.tags.GetOr([])),
        Some(ps),
        Some(dto.description.GetOr("")),
        Some(dto.previewImagePath.GetOr("")),
        Some(dto.createdBy.GetOr("")),
        dto.lastModified))
  }

  /** Every key of the parameter dictionary is its parameter's own name. */
  predicate KeyedByName(ps: Parameters) {
    UniqueKeys(ps) && forall i :: 0 <= i < |ps| ==> ps[i].0 == ps[i].1.name
  }

  lemma ParametersDTOsUnique(ps: Parameters)
    requires KeyedByName(ps)
    ensures UniqueNames(ParametersToDTOs(ps))
  {
  }

  /**
    Model to transfer object and back succeeds when the parameters are keyed by
    name, and keeps id, name, category, timestamp, tags (absent becomes empty) and
    the parameters (their units and descriptions coalesced to "").
   */
  lemma ModelRoundTrip(model: FamilyMetadata)
    requires KeyedByName(model.parameters.GetOr([]))
    ensures ToModel(ToDTO(model)).Ok?
    ensures
      var m := ToModel(ToDTO(model)).value;
      m.id == model.id && m.name == model.name && m.category == model.category
      && m.lastModified == model.lastModified && m.tags == Some(model.tags.GetOr([]))
      && |m.parameters.value| == |model.parameters.GetOr([])|
      && forall i :: 0 <= i < |m.parameters.value| ==>
           m.parameters.value[i].0 == model.parameters.GetOr([])[i].0
           && m.parameters.value[i].1 == ParameterToModel(ParameterToDTO(model.parameters.GetOr([])[i].1))
  {
    ParametersDTOsUnique(model.parameters.GetOr([]));
  }

  /** When every optional value is present, model to transfer object and back is the identity. */
  lemma ModelRoundTripComplete(model: FamilyMetadata)
    requires model.tags.Some? && model.parameters.Some? && KeyedByName(model.parameters.value)
    requires model.description.Some? && model.previewImagePath.Some? && model.createdBy.Some?
    requires forall i :: 0 <= i < |model.parameters.value| ==>
      model.parameters.value[i].1.unit.Some? && model.parameters.value[i].1.description.Some?
    ensures ToModel(ToDTO(model)) == Ok(model)
  {
    ModelRoundTrip(model);
    var m := ToModel(ToDTO(model)).value;
    forall i | 0 <= i < |model.parameters.value| ensures m.parameters.value[i] == model.parameters.value[i] {
      ParameterModelRoundTrip(model.parameters.value[i].1);
    }
    assert m.parameters.value == model.parameters.value;
    assert m == model;
  }

  /** When every optional value is present, transfer object to model and back is the identity. */
  lemma DTORoundTripComplete(dto: FamilyMetadataDTO)
    requires dto.tags.Some? && dto.parameters.Some? && UniqueNames(dto.parameters.value)
    requires dto.description.Some? && dto.previewImagePath.Some? && dto.createdBy.Some?
    requires forall i :: 0 <= i < |dto.parameters.value| ==>
      dto.parameters.value[i].unit.Some? && dto.parameters.value[i].description.Some?
    ensures ToModel(dto).Ok? && ToDTO(ToModel(dto).value) == dto
  {
    var m := ToModel(dto).value;
    forall i | 0 <= i < |dto.parameters.value| ensures ParametersToDTOs(m.parameters.value)[i] == dto.parameters.value[i] {
      ParameterDTORoundTrip(dto.parameters.value[i]);
    }
    assert ParametersToDTOs(m.parameters.value) == dto.parameters.value;
  }

  /**
    As written, an absent preview path does not survive model to transfer object
    and back: it comes back as "".
   */
  lemma AbsentValueLost()
    ensures
      var model := FamilyMetadata("F001", "测试族", "结构", Some(["标签1"]), Some([]), Some("描述"), None, None, Timestamp(0));
      ToModel(ToDTO(model)).Ok?
      && ToModel(ToDTO(model)).value.previewImagePath == Some("")
      && ToModel(ToDTO(model)).value.previewImagePath != model.previewImagePath
  {
  }

  /**
    `ToModel` as evidently intended: absent description, preview path and creator
    stay absent, so nothing is invented; everything else, the parameters included,
    is converted as written.
   */
  function ToModelKeepingAbsence(dto: FamilyMetadataDTO): (r: Result<FamilyMetadata, MapperError>)
    ensures r.Ok? <==> UniqueNames(dto.parameters.GetOr([]))
    ensures r.Ok? ==> r.value.id == dto.id && r.value.name == dto.name && r.value.category == dto.category
    ensures r.Ok? ==> r.value.lastModified == dto.lastModified && r.value.tags == Some(dto.tags.GetOr([]))
    ensures r.Ok? ==>
      (r.value.description == dto.description && r.value.previewImagePath == dto.previewImagePath
       && r.value.createdBy == dto.createdBy)
    ensures r.Ok? ==>
      (r.value.parameters.Some? && |r.value.parameters.value| == |dto.parameters.GetOr([])|
       && forall i :: 0 <= i < |dto.parameters.GetOr([])| ==>
            r.value.parameters.value[i] == (dto.parameters.GetOr([])[i].name, ParameterToModel(dto.parameters.GetOr([])[i])))
  {
    match ToParameterDictionary(dto.parameters.GetOr([]))
    case Err(e) => Err(e)
    case Ok(ps) =>
      Ok(FamilyMetadata(
        dto.id, dto.name, dto.category,
        Some(dto.tags.GetOr([])),
        Some(ps),
        dto.description, dto.previewImagePath, dto.createdBy, dto.lastModified))
  }

  /**
    With the intended conversion, model to transfer object and back keeps every
    family field the round-trip tests compare, absent values included, and the
    parameters' names and count.
   */
  lemma KeepingAbsenceModelRoundTrip(model: FamilyMetadata)
    requires KeyedByName(model.parameters.GetOr([]))
    ensures ToModelKeepingAbsence(ToDTO(model)).Ok?
    ensures
      var m := ToModelKeepingAbsence(ToDTO(model)).value;
      m.id == model.id && m.name == model.name && m.category == model.category
      && m.lastModified == model.lastModified && m.tags == Some(model.tags.GetOr([]))
      && m.description == model.description && m.previewImagePath == model.previewImagePath
      && m.createdBy == model.createdBy
      && |m.parameters.value| == |model.parameters.GetOr([])|
      && forall i :: 0 <= i < |m.parameters.value| ==> m.parameters.value[i].0 == model.parameters.GetOr([])[i].0
  {
    ParametersDTOsUnique(model.parameters.GetOr([]));
  }

  /**
    With the intended conversion, model to transfer object and back is the identity
    whenever the lists and every parameter's unit and description are present.
   */
  lemma KeepingAbsenceModelIdentity(model: FamilyMetadata)
    requires model.tags.Some? && model.parameters.Some? && KeyedByName(model.parameters.value)
    requires forall i :: 0 <= i < |model.parameters.value| ==>
      model.parameters.value[i].1.unit.Some? && model.parameters.value[i].1.description.Some?
    ensures ToModelKeepingAbsence(ToDTO(model)) == Ok(model)
  {
    KeepingAbsenceModelRoundTrip(model);
    var m := ToModelKeepingAbsence(ToDTO(model)).value;
    forall i | 0 <= i < |model.parameters.value| ensures m.parameters.value[i] == model.parameters.value[i] {
      ParameterModelRoundTrip(model.parameters.value[i].1);
    }
    assert m.parameters.value == model.parameters.value;
  }

  /**
    With the intended conversion, transfer object to model and back keeps every
    family field the round-trip tests compare, absent values included, and the
    number of parameters.
   */
  lemma KeepingAbsenceDTORoundTrip(dto: FamilyMetadataDTO)
    requires UniqueNames(dto.parameters.GetOr([]))
    ensures ToModelKeepingAbsence(dto).Ok?
    ensures
      var d := ToDTO(ToModelKeepingAbsence(dto).value);
      d.id == dto.id && d.name == dto.name && d.category == dto.category
      && d.lastModified == dto.lastModified && d.tags == Some(dto.tags.GetOr([]))
      && d.description == dto.description && d.previewImagePath == dto.previewImagePath
      && d.createdBy == dto.createdBy
      && |d.parameters.value| == |dto.parameters.GetOr([])|
  {
  }

  /**
    With the intended conversion, transfer object to model and back is the identity
    whenever the lists and every parameter's unit and description are present.
   */
  lemma KeepingAbsenceDTOIdentity(dto: FamilyMetadataDTO)
    requires dto.tags.Some? && dto.parameters.Some? && UniqueNames(dto.parameters.value)
    requires forall i :: 0 <= i < |dto.parameters.value| ==>
      dto.parameters.value[i].unit.Some? && dto.parameters.value[i].description.Some?
    ensures ToModelKeepingAbsence(dto).Ok? && ToDTO(ToModelKeepingAbsence(dto).value) == dto
  {
    var m := ToModelKeepingAbsence(dto).value;
    forall i | 0 <= i < |dto.parameters.value| ensures ParametersToDTOs(m.parameters.value)[i] == dto.parameters.value[i] {
      ParameterDTORoundTrip(dto.parameters.value[i]);
    }
    assert ParametersToDTOs(m.parameters.value) == dto.parameters.value;
  }

  /**
    As written, a parameter transfer object with a null unit comes back from
    `ToModel` then `ToDTO` with unit "" instead of null.
   */
  lemma AbsentUnitLost()
    ensures
      var dto := ParameterDTO("", "", None, false, None, None);
      ParameterToModel(dto).unit == Some("")
      && ParameterToDTO(ParameterToModel(dto)).unit == Some("")
  {
  }

  /**
    `ParameterMapper.ToDTO` as evidently intended: an empty unit is emitted as null,
    so a null unit survives transfer object to model and back while the model still
    holds "".
   */
  function ParameterToDTONullingUnit(model: Parameter): (r: ParameterDTO)
    ensures r.unit == (if model.unit == Some("") then None else model.unit)
  {
    ParameterDTO(model.name, model.paramType, if model.unit == Some("") then None else model.unit,
      model.required, model.description, model.defaultValue)
  }

  /** With the intended `ToDTO`, the transfer object round trip keeps every unit other than "". */
  lemma NullingUnitRoundTrip(dto: ParameterDTO)
    requires dto.unit != Some("") && dto.description.Some?
    ensures ParameterToDTONullingUnit(ParameterToModel(dto)) == dto
  {
  }
}
