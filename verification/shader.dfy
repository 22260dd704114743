/**
 * The outcome of building the shader program. Compiling and linking are
 * foreign calls; what the batch does with their status words is modelled:
 * a failed compile status throws out of the constructor, a failed link
 * status is only written to standard output.
 */
module Shader {
  import opened Wrappers

  /** The GL_COMPILE_STATUS of each stage and the GL_LINK_STATUS of the program. */
  datatype ShaderStatus = ShaderStatus(vertexCompiles: bool, fragmentCompiles: bool, linkSucceeds: bool)

  /** The std::runtime_error thrown out of the constructor. */
  datatype ShaderError = RuntimeError(what: string)

  const CompileFailedMessage := "Shader compilation failed"
  const LinkFailedLog := "ERROR::SHADER::PROGRAM::LINKING_FAILED"

  /**
   * The shader program a constructed batch owns: whether it linked, and
   * what construction wrote to standard output about it.
   */
  datatype Program = Program(linked: bool, stdout: seq<string>)

  /** _checkShaderCompileErrors: throws exactly when the compile status is false. */
  function CheckShaderCompileErrors(compileStatus: bool): (r: Outcome<ShaderError>)
    ensures r.Fail? <==> !compileStatus
    ensures r.Fail? ==> r.error.what == CompileFailedMessage
  {
    if compileStatus then Pass else Fail(RuntimeError(CompileFailedMessage))
  }

  /**
   * The shader part of construction: check the vertex stage, then the
   * fragment stage, then link. Only a compile failure stops construction;
   * a link failure leaves a program that did not link and one line of
   * output.
   */
  function BuildProgram(status: ShaderStatus): (r: Result<Program, ShaderError>)
    ensures r.Failure? <==> !status.vertexCompiles || !status.fragmentCompiles
    ensures r.Failure? ==> r.error.what == CompileFailedMessage
    ensures r.Success? ==> r.value.linked == status.linkSucceeds
    ensures r.Success? && status.linkSucceeds ==> r.value.stdout == []
    ensures r.Success? && !status.linkSucceeds ==> r.value.stdout == [LinkFailedLog]
  {
    match CheckShaderCompileErrors(status.vertexCompiles)
    case Fail(e) => Failure(e)
    case Pass =>
      match CheckShaderCompileErrors(status.fragmentCompiles)
      case Fail(e) => Failure(e)
      case Pass =>
        if status.linkSucceeds then Success(Program(true, []))
        else Success(Program(false, [LinkFailedLog]))
  }
}
