/** newservice/service/serializers.py: the checks a CV submission goes through
    (`CurriculoSerializer.validate`, `validate_file`) and the status default
    that `create` writes into the validated data. */
module Serializers {
  import opened Wrappers
  import Text

  const MAX_FILE_PATH_LENGTH: nat := 255
  const PDF_SUFFIX := ".pdf"
  const DEFAULT_STATUS: int := 0

  const NO_STUDENT := "Estudante não identificado. Por favor, forneça as credenciais corretas."
  const NO_CONSENT := "Deves aceitar a partilhar os dados a submeter o curriculo. Por favor, aceite os termos de dados."
  const NOT_PDF := "O ficheiro do curriculo deve estar em formato PDF."
  const PATH_TOO_LONG := "O caminho do ficheiro é demasiado longo."

  /** The student a submission names; `shareAceites` is the nullable consent flag. */
  datatype StudentRef = StudentRef(id: string, shareAceites: Option<bool>)

  /** The serializer's attrs: file path, description and the student, if given. */
  datatype CurriculoAttrs = CurriculoAttrs(file: string, descricao: Option<string>, estudante: Option<StudentRef>)

  /** `validate(attrs)`: a ValidationError is Failure(message). */
  function Validate(attrs: CurriculoAttrs): (r: Result<CurriculoAttrs, string>)
    ensures r.Success? <==> attrs.estudante.Some? && attrs.estudante.value.shareAceites == Some(true)
    ensures r.Success? ==> r.value == attrs
    ensures attrs.estudante.None? ==> r == Failure(NO_STUDENT)
    ensures attrs.estudante.Some? && attrs.estudante.value.shareAceites != Some(true) ==> r == Failure(NO_CONSENT)
  {
    match attrs.estudante
    case None => Failure(NO_STUDENT)
    case Some(student) =>
      if student.shareAceites != Some(true) then Failure(NO_CONSENT) else Success(attrs)
  }

  /** `validate_file(value)`: the suffix test comes before the length test. */
  function ValidateFile(value: string): (r: Result<string, string>)
    ensures r.Success? <==> Text.EndsWith(Text.Lower(value), PDF_SUFFIX) && |value| <= MAX_FILE_PATH_LENGTH
    ensures r.Success? ==> r.value == value
    ensures !Text.EndsWith(Text.Lower(value), PDF_SUFFIX) ==> r == Failure(NOT_PDF)
    ensures Text.EndsWith(Text.Lower(value), PDF_SUFFIX) && |value| > MAX_FILE_PATH_LENGTH ==> r == Failure(PATH_TOO_LONG)
  {
    if !Text.EndsWith(Text.Lower(value), PDF_SUFFIX) then Failure(NOT_PDF)
    else if |value| > MAX_FILE_PATH_LENGTH then Failure(PATH_TOO_LONG)
    else Success(value)
  }

  /** The suffix comparison ignores case. */
  lemma UpperCaseSuffixAccepted()
    ensures ValidateFile("CV.PDF") == Success("CV.PDF")
  {
    assert Text.Lower("CV.PDF") == "cv.pdf";
  }

  /** The serializer's two custom validators, in the order the framework runs
      them: `validate_file` first, then `validate` (skipped once a field has
      failed). The framework's own field checks are not part of this. */
  function ValidateSubmission(attrs: CurriculoAttrs): (r: Result<CurriculoAttrs, string>)
    ensures r.Success? ==> r.value == attrs
    ensures r.Success? <==>
      && Text.EndsWith(Text.Lower(attrs.file), PDF_SUFFIX)
      && |attrs.file| <= MAX_FILE_PATH_LENGTH
      && attrs.estudante.Some?
      && attrs.estudante.value.shareAceites == Some(true)
    ensures ValidateFile(attrs.file).Failure? ==> r == Failure(ValidateFile(attrs.file).error)
    ensures ValidateFile(attrs.file).Success? ==> r == Validate(attrs)
  {
    match ValidateFile(attrs.file)
    case Failure(e) => Failure(e)
    case Success(_) => Validate(attrs)
  }

  /** A value of the validated-data dictionary. */
  datatype FieldValue = StringValue(s: string) | IntValue(i: int) | StudentValue(student: StudentRef)

  /** The `validated_data` dictionary, which `create` updates in place. */
  class ValidatedData {
    var entries: map<string, FieldValue>

    constructor (entries: map<string, FieldValue>)
      ensures this.entries == entries
    {
      this.entries := entries;
    }
  }

  /** `create(validated_data)`: status 0 unless one was supplied; returns the
      dictionary handed to the model's create. */
  method Create(data: ValidatedData) returns (saved: map<string, FieldValue>)
    modifies data
    ensures "status" in data.entries
    ensures "status" in old(data.entries) ==> data.entries == old(data.entries)
    ensures "status" !in old(data.entries) ==> data.entries == old(data.entries)["status" := IntValue(DEFAULT_STATUS)]
    ensures forall k :: k in old(data.entries) ==> k in data.entries && data.entries[k] == old(data.entries)[k]
    ensures saved == data.entries
  {
    if "status" !in data.entries {
      data.entries := data.entries["status" := IntValue(DEFAULT_STATUS)];
    }
    saved := data.entries;
  }
}
