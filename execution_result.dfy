/** The value one run returns to the calling script: a status code and the
    output text. Both fields are fixed when the value is made. */
module ExecutionResults {
  import opened Words

  datatype ExecutionResult = ExecutionResult(returnCode: Int32, output: string) {

    /** The `return_code` field: with the output, it rebuilds this value. */
    function GetReturnCode(): (code: Int32)
      ensures ExecutionResult(code, output) == this
    {
      returnCode
    }

    /** The `output` field: with the status, it rebuilds this value. */
    function GetOutput(): (text: string)
      ensures ExecutionResult(returnCode, text) == this
    {
      output
    }

    /** The value is immutable. */
    function IsImmutable(): (b: bool)
      ensures b
    {
      true
    }
  }

  /** The getters give back exactly what the value was built from. */
  lemma GettersReturnConstructorArguments(returnCode: Int32, output: string)
    ensures ExecutionResult(returnCode, output).GetReturnCode() == returnCode
    ensures ExecutionResult(returnCode, output).GetOutput() == output
  {
  }

  /** Values built from the same arguments are the same, and the fields
      determine the value: there is no other state to diverge. */
  lemma FieldsDetermineValue(a: ExecutionResult, b: ExecutionResult)
    ensures a == b <==> a.GetReturnCode() == b.GetReturnCode() && a.GetOutput() == b.GetOutput()
  {
  }
}
