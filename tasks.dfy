/**
 * The task encoder: the job descriptor the API enqueues and the worker decodes.
 * JSON is not modelled byte by byte. A payload is either the encoding of a CompilePayload, or
 * bytes that fail to decode; the latter carries the execution id the decoder had filled in
 * before it failed (the zero UUID when it filled in nothing).
 */
module Tasks {
  import opened GoBasics
  import opened Wrappers

  const TypeCompilePython: string := "compile:python"
  const TypeCompileGo: string := "compile:go"

  /** The values of the database enum db.Language. */
  const LanguagePython: string := "python"
  const LanguageGo: string := "go"

  /** db.Language is a string type: any text converts to it. */
  type Language = string

  datatype CompilePayload = CompilePayload(executionId: Uuid, language: Language, sourceCode: string)

  datatype PayloadBytes = Encoded(payload: CompilePayload) | Malformed(partialId: Uuid)

  /** An asynq task: its type tag and its payload bytes. */
  datatype Task = Task(typeName: string, payload: PayloadBytes)

  datatype EncodeError = MarshalError | UnsupportedLanguage(language: Language)

  /** The runtimes the worker dispatches to. */
  datatype Runtime = Python | Go

  /**
   * NewCompileTask. Marshalling is an input: it comes first, and its error is returned before
   * the language is looked at. Then the language picks the type tag, or is refused.
   */
  function NewCompileTask(executionId: Uuid, language: Language, sourceCode: string,
                          marshalOk: bool): (r: Result<Task, EncodeError>)
    ensures !marshalOk ==> r == Failure(MarshalError)
    ensures marshalOk ==> (r.Success? <==> language == LanguagePython || language == LanguageGo)
    ensures marshalOk && language != LanguagePython && language != LanguageGo ==>
              r == Failure(UnsupportedLanguage(language))
    ensures r.Success? ==> r.value.payload == Encoded(CompilePayload(executionId, language, sourceCode))
    ensures r.Success? && language == LanguagePython ==> r.value.typeName == TypeCompilePython
    ensures r.Success? && language == LanguageGo ==> r.value.typeName == TypeCompileGo
  {
    if !marshalOk then Failure(MarshalError)
    else
      var payload := Encoded(CompilePayload(executionId, language, sourceCode));
      if language == LanguagePython then Success(Task(TypeCompilePython, payload))
      else if language == LanguageGo then Success(Task(TypeCompileGo, payload))
      else Failure(UnsupportedLanguage(language))
  }

  /** The worker's switch over the task type tag. */
  function RuntimeFor(typeName: string): (r: Option<Runtime>)
    ensures r == Some(Python) <==> typeName == TypeCompilePython
    ensures r == Some(Go) <==> typeName == TypeCompileGo
  {
    if typeName == TypeCompilePython then Some(Python)
    else if typeName == TypeCompileGo then Some(Go)
    else None
  }

  /** The runtime a supported language is meant to run under. */
  function RuntimeOf(language: Language): Option<Runtime>
  {
    if language == LanguagePython then Some(Python)
    else if language == LanguageGo then Some(Go)
    else None
  }

  /**
   * Tag and payload always agree: the tag depends on the language alone, and the worker's
   * dispatch on the tag reaches the runtime of the language the payload carries.
   */
  lemma TagAgreesWithLanguage(id: Uuid, language: Language, source: string, marshalOk: bool)
    requires NewCompileTask(id, language, source, marshalOk).Success?
    ensures var t := NewCompileTask(id, language, source, marshalOk).value;
            RuntimeFor(t.typeName) == RuntimeOf(language) && RuntimeOf(language).Some? &&
            t.payload.Encoded? && t.payload.payload.language == language
  {
  }

  /** Two tasks for the same language carry the same tag, whatever the id and source. */
  lemma TagDependsOnLanguageOnly(id1: Uuid, id2: Uuid, language: Language, s1: string, s2: string)
    requires NewCompileTask(id1, language, s1, true).Success?
    ensures NewCompileTask(id2, language, s2, true).Success?
    ensures NewCompileTask(id1, language, s1, true).value.typeName ==
            NewCompileTask(id2, language, s2, true).value.typeName
  {
  }
}
