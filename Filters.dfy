/** newservice/service/filters.py: `EstudanteFilterSet`, each filter a function
    from a student query result (a sequence of rows) to the rows it keeps.
    A NULL column never matches a lookup. The filter framework skips a field
    filter whose value is empty; that is what the `""`, None and [] cases of
    the field filters below stand for. */
module Filters {
  import opened Wrappers
  import Text
  import Seqs

  /** An `estudante` row, identified by its auth user id. */
  datatype Estudante = Estudante(id: string, grau: Option<string>, ano: Option<int>, disponibilidade: Option<string>)
  datatype Area = Area(id: int, nome: Option<string>)
  /** An `area_estudante` link row. */
  datatype AreaEstudante = AreaEstudante(areaId: int, estudanteId: string)

  /** The `iexact` lookup on a nullable column. */
  predicate IExact(column: Option<string>, value: string) {
    column.Some? && Text.EqualsIgnoreCase(column.value, value)
  }

  /** The `icontains` lookup on a nullable column. */
  predicate IContains(column: Option<string>, value: string) {
    column.Some? && Text.Contains(Text.Lower(column.value), Text.Lower(value))
  }

  predicate IExactAny(column: Option<string>, values: seq<string>) {
    exists k :: 0 <= k < |values| && IExact(column, values[k])
  }

  /** `grau`: case-insensitive equality. */
  function FilterGrau(qs: seq<Estudante>, value: string): (r: seq<Estudante>)
    ensures value == "" ==> r == qs
    ensures value != "" ==> forall i :: 0 <= i < |qs| ==> (qs[i] in r <==> IExact(qs[i].grau, value))
    ensures forall i :: 0 <= i < |r| ==> r[i] in qs
    ensures Seqs.SubsequenceOf(r, qs)
  {
    if value == "" then Seqs.SubsequenceOfSelf(qs); qs else Seqs.Keep(qs, (s: Estudante) => IExact(s.grau, value))
  }

  /** `grau_in`: case-insensitive equality with any listed value. */
  function FilterGrauIn(qs: seq<Estudante>, values: seq<string>): (r: seq<Estudante>)
    ensures values == [] ==> r == qs
    ensures values != [] ==> forall i :: 0 <= i < |qs| ==> (qs[i] in r <==> IExactAny(qs[i].grau, values))
    ensures forall i :: 0 <= i < |r| ==> r[i] in qs
    ensures Seqs.SubsequenceOf(r, qs)
  {
    if values == [] then Seqs.SubsequenceOfSelf(qs); qs else Seqs.Keep(qs, (s: Estudante) => IExactAny(s.grau, values))
  }

  /** `ano_min`: `ano >= value`. */
  function FilterAnoMin(qs: seq<Estudante>, value: Option<int>): (r: seq<Estudante>)
    ensures value.None? ==> r == qs
    ensures value.Some? ==>
      forall i :: 0 <= i < |qs| ==> (qs[i] in r <==> qs[i].ano.Some? && qs[i].ano.value >= value.value)
    ensures forall i :: 0 <= i < |r| ==> r[i] in qs
    ensures Seqs.SubsequenceOf(r, qs)
  {
    match value
    case None => Seqs.SubsequenceOfSelf(qs); qs
    case Some(v) => Seqs.Keep(qs, (s: Estudante) => s.ano.Some? && s.ano.value >= v)
  }

  /** `ano_max`: `ano <= value`. */
  function FilterAnoMax(qs: seq<Estudante>, value: Option<int>): (r: seq<Estudante>)
    ensures value.None? ==> r == qs
    ensures value.Some? ==>
      forall i :: 0 <= i < |qs| ==> (qs[i] in r <==> qs[i].ano.Some? && qs[i].ano.value <= value.value)
    ensures forall i :: 0 <= i < |r| ==> r[i] in qs
    ensures Seqs.SubsequenceOf(r, qs)
  {
    match value
    case None => Seqs.SubsequenceOfSelf(qs); qs
    case Some(v) => Seqs.Keep(qs, (s: Estudante) => s.ano.Some? && s.ano.value <= v)
  }

  /** `filter_disponibilidade`: a value whose lower-case form is a valid choice
      is compared exactly in that form; any other value case-insensitively.
      `validChoices` stands for the model's choice keys. */
  function FilterDisponibilidade(qs: seq<Estudante>, value: string, validChoices: seq<string>): (r: seq<Estudante>)
    ensures value == "" ==> r == qs
    ensures value != "" && Text.Lower(value) in validChoices ==>
      forall i :: 0 <= i < |qs| ==> (qs[i] in r <==> qs[i].disponibilidade == Some(Text.Lower(value)))
    ensures value != "" && Text.Lower(value) !in validChoices ==>
      forall i :: 0 <= i < |qs| ==> (qs[i] in r <==> IExact(qs[i].disponibilidade, value))
    ensures value != "" ==> forall i :: 0 <= i < |r| ==> IExact(r[i].disponibilidade, value)
    ensures forall i :: 0 <= i < |r| ==> r[i] in qs
    ensures Seqs.SubsequenceOf(r, qs)
  {
    if value == "" then Seqs.SubsequenceOfSelf(qs); qs
    else
      var valueLower := Text.Lower(value);
      Text.LowerIdempotent(value);
      if valueLower in validChoices then Seqs.Keep(qs, (s: Estudante) => s.disponibilidade == Some(valueLower))
      else Seqs.Keep(qs, (s: Estudante) => IExact(s.disponibilidade, value))
  }

  /** With a valid choice the comparison is exact: a row stored with different
      capitalisation is not found. */
  lemma ValidChoiceIsMatchedExactly()
    ensures FilterDisponibilidade([Estudante("a", None, None, Some("Estagio"))], "ESTAGIO", ["estagio"]) == []
    ensures FilterDisponibilidade([Estudante("a", None, None, Some("estagio"))], "ESTAGIO", ["estagio"]) ==
            [Estudante("a", None, None, Some("estagio"))]
  {
    var row := Estudante("a", None, None, Some("Estagio"));
    assert Text.Lower("ESTAGIO") == "estagio";
    assert row.disponibilidade != Some("estagio");
  }

  /** `disponibilidade_in`: case-insensitive equality with any listed value. */
  function FilterDisponibilidadeIn(qs: seq<Estudante>, values: seq<string>): (r: seq<Estudante>)
    ensures values == [] ==> r == qs
    ensures values != [] ==>
      forall i :: 0 <= i < |qs| ==> (qs[i] in r <==> IExactAny(qs[i].disponibilidade, values))
    ensures forall i :: 0 <= i < |r| ==> r[i] in qs
    ensures Seqs.SubsequenceOf(r, qs)
  {
    if values == [] then Seqs.SubsequenceOfSelf(qs); qs else Seqs.Keep(qs, (s: Estudante) => IExactAny(s.disponibilidade, values))
  }

  /** The student has a link to area `areaId`. */
  predicate LinkedToArea(s: Estudante, links: seq<AreaEstudante>, areaId: int) {
    exists k :: 0 <= k < |links| && links[k].estudanteId == s.id && links[k].areaId == areaId
  }

  /** The student is linked to an area whose name contains `value`, ignoring case. */
  predicate LinkedToAreaNamed(s: Estudante, links: seq<AreaEstudante>, areas: seq<Area>, value: string) {
    exists k, m :: 0 <= k < |links| && 0 <= m < |areas| &&
      links[k].estudanteId == s.id && links[k].areaId == areas[m].id && IContains(areas[m].nome, value)
  }

  /** `filter_by_area_id`: a falsy id (None or 0) keeps everything; otherwise
      the students linked to that area, each once (`.distinct()`). */
  function FilterByAreaId(qs: seq<Estudante>, links: seq<AreaEstudante>, value: Option<int>): (r: seq<Estudante>)
    ensures value.None? || value.value == 0 ==> r == qs
    ensures value.Some? && value.value != 0 ==>
      forall i :: 0 <= i < |qs| ==> (qs[i] in r <==> LinkedToArea(qs[i], links, value.value))
    ensures forall i :: 0 <= i < |r| ==> r[i] in qs
    ensures Seqs.SubsequenceOf(r, qs)
  {
    if value.None? || value.value == 0 then Seqs.SubsequenceOfSelf(qs); qs
    else Seqs.Keep(qs, (s: Estudante) => LinkedToArea(s, links, value.value))
  }

  /** `filter_by_area_name`: a falsy name keeps everything; otherwise the
      students with an area whose name contains it, each once. */
  function FilterByAreaName(qs: seq<Estudante>, links: seq<AreaEstudante>, areas: seq<Area>, value: string): (r: seq<Estudante>)
    ensures value == "" ==> r == qs
    ensures value != "" ==>
      forall i :: 0 <= i < |qs| ==> (qs[i] in r <==> LinkedToAreaNamed(qs[i], links, areas, value))
    ensures forall i :: 0 <= i < |r| ==> r[i] in qs
    ensures Seqs.SubsequenceOf(r, qs)
  {
    if value == "" then Seqs.SubsequenceOfSelf(qs); qs
    else Seqs.Keep(qs, (s: Estudante) => LinkedToAreaNamed(s, links, areas, value))
  }

  /** The area filters return each student at most once, however many
      matching links the student has. */
  lemma AreaFiltersAreDistinct(qs: seq<Estudante>, links: seq<AreaEstudante>, areas: seq<Area>,
                               areaId: Option<int>, areaName: string)
    requires Seqs.NoDuplicates(qs)
    ensures Seqs.NoDuplicates(FilterByAreaId(qs, links, areaId))
    ensures Seqs.NoDuplicates(FilterByAreaName(qs, links, areas, areaName))
  {
    Seqs.SubsequenceNoDuplicates(FilterByAreaId(qs, links, areaId), qs);
    Seqs.SubsequenceNoDuplicates(FilterByAreaName(qs, links, areas, areaName), qs);
  }
}
