/**
 * Cubiquity.Impl.CubiquityDLL: the managed wrapper around the native
 * library. Its static state (whether the type initialiser succeeded, and
 * the cached log file path) lives in a `CubiquityDLL` object; the one-time
 * static constructor is its constructor.
 */
module Impl {
  import opened Wrappers
  import opened Ints
  import opened CubiquityC
  import opened Text

  const CU_OK: int32 := 0

  const RequiredMajorVersion: uint32 := 1
  const RequiredMinorVersion: uint32 := 1
  const RequiredPatchVersion: uint32 := 4
  const RequiredVersion: Version := Version(RequiredMajorVersion, RequiredMinorVersion, RequiredPatchVersion)

  /** The exceptions a caller of the wrapper can observe. */
  datatype CubiquityException =
    | WrongVersion(expected: Version, found: Version)
    | NativeCodeError(code: int32, codeName: string, lastErrorMessage: string, logFilePath: string)
      /** What every access to the type raises after its static constructor has thrown `cause`. */
    | TypeInitialization(cause: CubiquityException)

  /** The dotted major.minor.patch form the messages print. */
  function VersionString(v: Version): string {
    DecimalString(v.major as nat) + "." + DecimalString(v.minor as nat) + "." + DecimalString(v.patch as nat)
  }

  /** No character of `s` is a dot. */
  ghost predicate DotFree(s: string) {
    forall k :: 0 <= k < |s| ==> s[k] != '.'
  }

  /** The first dot splits a dotted string uniquely. */
  lemma SplitAtDot(a: string, b: string, c: string, d: string)
    requires DotFree(a) && DotFree(c)
    requires a + "." + b == c + "." + d
    ensures a == c && b == d
  {
    var s := a + "." + b;
    assert |a| == |c| by {
      assert s[|a|] == '.';
      assert s[|c|] == '.';
    }
    assert a == s[..|a|] == c;
    assert b == s[|a| + 1..] == d;
  }

  lemma DecimalDotFree(n: nat)
    ensures DotFree(DecimalString(n))
  {
  }

  /** Three dot-free pieces joined by dots split back uniquely. */
  lemma SplitDotted(a: string, b: string, c: string, x: string, y: string, z: string)
    requires DotFree(a) && DotFree(b) && DotFree(x) && DotFree(y)
    requires a + "." + b + "." + c == x + "." + y + "." + z
    ensures a == x && b == y && c == z
  {
    assert a + "." + b + "." + c == a + "." + (b + "." + c);
    assert x + "." + y + "." + z == x + "." + (y + "." + z);
    SplitAtDot(a, b + "." + c, x, y + "." + z);
    SplitAtDot(b, c, y, z);
  }

  /** Different versions are printed differently, so the message identifies the version. */
  lemma VersionStringInjective(v: Version, w: Version)
    requires VersionString(v) == VersionString(w)
    ensures v == w
  {
    DecimalDotFree(v.major as nat);
    DecimalDotFree(v.minor as nat);
    DecimalDotFree(w.major as nat);
    DecimalDotFree(w.minor as nat);
    SplitDotted(DecimalString(v.major as nat), DecimalString(v.minor as nat), DecimalString(v.patch as nat),
                DecimalString(w.major as nat), DecimalString(w.minor as nat), DecimalString(w.patch as nat));
    DecimalStringInjective(v.major as nat, w.major as nat);
    DecimalStringInjective(v.minor as nat, w.minor as nat);
    DecimalStringInjective(v.patch as nat, w.patch as nat);
  }

  // The fixed pieces of the exception messages.
  const WrongVersionIntro: string := "Wrong version of Cubiquity native code library found! Expected version "
  const WrongVersionMiddle: string := " but found version "
  const WrongVersionOutro: string :=
    ".\nIf you are using the development version of Cubiquity (from the Git repository) then try a stable snapshot instead.\n"
  const NativeErrorIntro: string := "An exception has occured inside the Cubiquity native code library.\nError code \'"
  const NativeErrorMiddle: string := "\' with message \""
  const NativeErrorLogIntro: string := "\".\nPlease see the log file '"
  const NativeErrorOutro: string := "' for more details.\n"
  const TypeInitializationText: string := "The type initializer for 'Cubiquity.Impl.CubiquityDLL' threw an exception."

  /** The exception's text; each kind opens with its own fixed lead and closes with its own fixed ending. */
  function Message(e: CubiquityException): (s: string)
    ensures e.WrongVersion? ==> |WrongVersionIntro| <= |s| && s[..|WrongVersionIntro|] == WrongVersionIntro
    ensures e.WrongVersion? ==> |WrongVersionOutro| <= |s| && s[|s| - |WrongVersionOutro|..] == WrongVersionOutro
    ensures e.NativeCodeError? ==> |NativeErrorIntro| <= |s| && s[..|NativeErrorIntro|] == NativeErrorIntro
    ensures e.NativeCodeError? ==> |NativeErrorOutro| <= |s| && s[|s| - |NativeErrorOutro|..] == NativeErrorOutro
  {
    match e
    case WrongVersion(expected, found) =>
      WrongVersionIntro + VersionString(expected) + WrongVersionMiddle + VersionString(found) + WrongVersionOutro
    case NativeCodeError(_, codeName, lastErrorMessage, logFilePath) =>
      NativeErrorIntro + codeName + NativeErrorMiddle + lastErrorMessage + NativeErrorLogIntro + logFilePath
      + NativeErrorOutro
    case TypeInitialization(_) =>
      TypeInitializationText
  }

  /** The static constructor's version gate: an exact match, component by component. */
  function VersionGate(found: Version): (o: Outcome<CubiquityException>)
    ensures o.Pass? <==> (found.major == RequiredMajorVersion && found.minor == RequiredMinorVersion
                          && found.patch == RequiredPatchVersion)
    ensures o.Pass? <==> found == RequiredVersion
    ensures o.Fail? ==> o.error == WrongVersion(RequiredVersion, found)
  {
    if found.major != RequiredMajorVersion || found.minor != RequiredMinorVersion
       || found.patch != RequiredPatchVersion
    then Fail(WrongVersion(RequiredVersion, found))
    else Pass
  }

  /**
   * Validate's decision for `returnCode`, given the diagnostics it would
   * gather if it raises: only CU_OK passes.
   */
  function Validation(returnCode: int32, codeName: string, lastErrorMessage: string, logFilePath: string)
    : (o: Outcome<CubiquityException>)
    ensures o.Pass? <==> returnCode == CU_OK
    ensures o.Fail? ==> o.error.NativeCodeError? && o.error.code == returnCode
                        && o.error.codeName == codeName && o.error.lastErrorMessage == lastErrorMessage
                        && o.error.logFilePath == logFilePath
  {
    if returnCode != CU_OK then Fail(NativeCodeError(returnCode, codeName, lastErrorMessage, logFilePath))
    else Pass
  }

  /** What a wrapper hands its caller: its out-value, but only when validation passed. */
  function Returned<T>(validation: Outcome<CubiquityException>, value: T): (r: Result<T, CubiquityException>)
    ensures r.Success? <==> validation.Pass?
    ensures r.Success? ==> r.value == value
    ensures r.Failure? ==> r.error == validation.error
  {
    match validation
    case Pass => Success(value)
    case Fail(e) => Failure(e)
  }

  /** The diagnostic calls Validate makes for `returnCode`: none on CU_OK. */
  function DiagnosticCalls(returnCode: int32): (calls: seq<Call>)
    ensures calls == [] <==> returnCode == CU_OK
  {
    if returnCode == CU_OK then [] else [CuGetErrorCodeAsString(returnCode), CuGetLastErrorMessage]
  }

  /** The message of a native error names the code, the library's last error and the log file. */
  lemma NativeCodeErrorMessageCarriesDiagnostics(code: int32, codeName: string, lastErrorMessage: string,
                                                 logFilePath: string)
    ensures var m := Message(NativeCodeError(code, codeName, lastErrorMessage, logFilePath));
            IsInfix(codeName, m) && IsInfix(lastErrorMessage, m) && IsInfix(logFilePath, m)
  {
    var p1, p2, p3, p4 := NativeErrorIntro, NativeErrorMiddle, NativeErrorLogIntro, NativeErrorOutro;
    var m := Message(NativeCodeError(code, codeName, lastErrorMessage, logFilePath));
    assert m == p1 + codeName + (p2 + lastErrorMessage + p3 + logFilePath + p4);
    InfixOfConcat(p1, codeName, p2 + lastErrorMessage + p3 + logFilePath + p4);
    assert m == (p1 + codeName + p2) + lastErrorMessage + (p3 + logFilePath + p4);
    InfixOfConcat(p1 + codeName + p2, lastErrorMessage, p3 + logFilePath + p4);
    assert m == (p1 + codeName + p2 + lastErrorMessage + p3) + logFilePath + p4;
    InfixOfConcat(p1 + codeName + p2 + lastErrorMessage + p3, logFilePath, p4);
  }

  /** The message of a version mismatch names both the expected and the found version. */
  lemma WrongVersionMessageNamesBothVersions(found: Version)
    ensures var m := Message(WrongVersion(RequiredVersion, found));
            IsInfix(VersionString(RequiredVersion), m) && IsInfix(VersionString(found), m)
  {
    InfixesOfJoin(WrongVersionIntro, VersionString(RequiredVersion), WrongVersionMiddle, VersionString(found),
                  WrongVersionOutro);
  }

  /** Whether the static constructor completed. */
  datatype TypeState = Initialised | InitialisationFailed(cause: CubiquityException)

  class CubiquityDLL {
    const backend: Backend
    var typeState: TypeState
    /** Assigned by the static constructor only after the version gate passed. */
    var logFilePath: Option<string>

    ghost predicate Valid()
      reads this
    {
      && (typeState.Initialised? <==> logFilePath.Some?)
      && (typeState.InitialisationFailed? ==> typeState.cause.WrongVersion?)
    }

    /** Validate's outcome for `returnCode` when the call log is `h` as Validate starts. */
    ghost function ValidationAfter(h: seq<Call>, returnCode: int32): Outcome<CubiquityException>
      reads this
      requires logFilePath.Some?
    {
      var h1 := h + [CuGetErrorCodeAsString(returnCode)];
      Validation(returnCode, backend.errorCodeNameReply(h1),
                 backend.lastErrorMessageReply(h1 + [CuGetLastErrorMessage]), logFilePath.value)
    }

    /**
     * The count-then-fetch protocol of the managed mesh getters: from call
     * log `h` to call log `after`, with outcome `r`.
     */
    ghost predicate CountThenFetch<T>(h: seq<Call>, after: seq<Call>, count: Call, fetch: Call,
                                      reply: seq<Call> -> (int32, seq<T>),
                                      r: Result<array<T>, CubiquityException>)
      reads this, if r.Success? then {r.value} else {}
      requires Valid()
    {
      if typeState.InitialisationFailed? then
        after == h && r == Failure(TypeInitialization(typeState.cause))
      else
        var afterCount := h + [count];
        var countCode := backend.countReply(afterCount).0;
        if countCode != CU_OK then
          // the fetch query is never issued
          after == afterCount + DiagnosticCalls(countCode)
          && r == Failure(ValidationAfter(afterCount, countCode).error)
        else
          var afterFetch := afterCount + [fetch];
          var fetchCode := reply(afterFetch).0;
          && after == afterFetch + DiagnosticCalls(fetchCode)
          && if fetchCode != CU_OK then r == Failure(ValidationAfter(afterFetch, fetchCode).error)
             else r.Success? && r.value[..] == reply(afterFetch).1
    }

    /** In the count-then-fetch protocol a failed count query raises and the fetch is never issued. */
    lemma FailedCountNeverFetches<T>(h: seq<Call>, after: seq<Call>, count: Call, fetch: Call,
                                     reply: seq<Call> -> (int32, seq<T>),
                                     r: Result<array<T>, CubiquityException>)
      requires Valid() && typeState.Initialised?
      requires fetch.CuGetIndices? || fetch.CuGetVertices? || fetch.CuGetIndicesMC? || fetch.CuGetVerticesMC?
      requires count.CuGetNoOfIndices? || count.CuGetNoOfVertices?
            || count.CuGetNoOfIndicesMC? || count.CuGetNoOfVerticesMC?
      requires CountThenFetch(h, after, count, fetch, reply, r)
      requires backend.countReply(h + [count]).0 != CU_OK
      ensures r.Failure? && r.error.NativeCodeError?
      ensures after == h + [count] + DiagnosticCalls(backend.countReply(h + [count]).0)
      ensures |h| <= |after| && fetch !in after[|h|..]
    {
      var code := backend.countReply(h + [count]).0;
      assert after[|h|..] == [count, CuGetErrorCodeAsString(code), CuGetLastErrorMessage];
    }

    /**
     * The static constructor: installation check, version query (whose
     * return code is not checked), the exact version gate, and only then the
     * log file path, fetched once.
     */
    constructor StaticConstructor(b: Backend)
      modifies b
      ensures backend == b && Valid()
      ensures var h := old(b.calls) + [InstallationValidateAndFix, CuGetVersionNumber];
              var found := b.versionReply(h).1;
              if found == RequiredVersion then
                && typeState == Initialised
                && b.calls == h + [CuGetLogFilePath]
                && logFilePath == Some(b.logFilePathReply(b.calls))
              else
                && typeState == InitialisationFailed(WrongVersion(RequiredVersion, found))
                && b.calls == h
                && logFilePath == None
    {
      ghost var h0 := b.calls;
      b.ValidateAndFix();
      var code, majorVersion, minorVersion, patchVersion := b.cuGetVersionNumber();
      assert b.calls == h0 + [InstallationValidateAndFix, CuGetVersionNumber];
      backend := b;
      match VersionGate(Version(majorVersion, minorVersion, patchVersion))
      case Fail(e) =>
        typeState := InitialisationFailed(e);
        logFilePath := None;
      case Pass =>
        var path := b.cuGetLogFilePath();
        typeState := Initialised;
        logFilePath := Some(path);
    }

    /** Raises unless `returnCode` is CU_OK; gathers its diagnostics only when it raises. */
    method Validate(returnCode: int32) returns (o: Outcome<CubiquityException>)
      requires Valid() && typeState.Initialised?
      modifies backend
      ensures backend.calls == old(backend.calls) + DiagnosticCalls(returnCode)
      ensures o == ValidationAfter(old(backend.calls), returnCode)
      ensures returnCode == CU_OK ==> o == Pass && backend.calls == old(backend.calls)
    {
      if returnCode != CU_OK {
        var codeName := backend.cuGetErrorCodeAsString(returnCode);
        var lastErrorMessage := backend.cuGetLastErrorMessage();
        return Fail(NativeCodeError(returnCode, codeName, lastErrorMessage, logFilePath.value));
      }
      return Pass;
    }

    /** Every one-line wrapper: forward the request, validate its code, return its out-values. */
    method Forward(request: Request) returns (r: Result<seq<int>, CubiquityException>)
      requires Valid()
      modifies backend
      ensures typeState.InitialisationFailed? ==>
                backend.calls == old(backend.calls) && r == Failure(TypeInitialization(typeState.cause))
      ensures typeState.Initialised? ==>
                var h := old(backend.calls) + [Cu(request)];
                var code := backend.requestReply(h).0;
                && backend.calls == h + DiagnosticCalls(code)
                && r == Returned(ValidationAfter(h, code), backend.requestReply(h).1)
    {
      if typeState.InitialisationFailed? {
        return Failure(TypeInitialization(typeState.cause));
      }
      var code, outs := backend.Invoke(request);
      var v := Validate(code);
      return Returned(v, outs);
    }

    /** The public version query, which (unlike the static constructor) validates its code. */
    method GetVersionNumber() returns (r: Result<Version, CubiquityException>)
      requires Valid()
      modifies backend
      ensures typeState.InitialisationFailed? ==>
                backend.calls == old(backend.calls) && r == Failure(TypeInitialization(typeState.cause))
      ensures typeState.Initialised? ==>
                var h := old(backend.calls) + [CuGetVersionNumber];
                var code := backend.versionReply(h).0;
                && backend.calls == h + DiagnosticCalls(code)
                && r == Returned(ValidationAfter(h, code), backend.versionReply(h).1)
    {
      if typeState.InitialisationFailed? {
        return Failure(TypeInitialization(typeState.cause));
      }
      var code, majorVersion, minorVersion, patchVersion := backend.cuGetVersionNumber();
      var v := Validate(code);
      return Returned(v, Version(majorVersion, minorVersion, patchVersion));
    }

    /** The string getters return the library's answer without any validation. */
    method GetLogFilePath() returns (r: Result<string, CubiquityException>)
      requires Valid()
      modifies backend
      ensures typeState.InitialisationFailed? ==>
                backend.calls == old(backend.calls) && r == Failure(TypeInitialization(typeState.cause))
      ensures typeState.Initialised? ==>
                backend.calls == old(backend.calls) + [CuGetLogFilePath]
                && r == Success(backend.logFilePathReply(backend.calls))
    {
      if typeState.InitialisationFailed? {
        return Failure(TypeInitialization(typeState.cause));
      }
      var path := backend.cuGetLogFilePath();
      return Success(path);
    }

    method GetErrorCodeAsString(errorCode: int32) returns (r: Result<string, CubiquityException>)
      requires Valid()
      modifies backend
      ensures typeState.InitialisationFailed? ==>
                backend.calls == old(backend.calls) && r == Failure(TypeInitialization(typeState.cause))
      ensures typeState.Initialised? ==>
                backend.calls == old(backend.calls) + [CuGetErrorCodeAsString(errorCode)]
                && r == Success(backend.errorCodeNameReply(backend.calls))
    {
      if typeState.InitialisationFailed? {
        return Failure(TypeInitialization(typeState.cause));
      }
      var name := backend.cuGetErrorCodeAsString(errorCode);
      return Success(name);
    }

    method GetLastErrorMessage() returns (r: Result<string, CubiquityException>)
      requires Valid()
      modifies backend
      ensures typeState.InitialisationFailed? ==>
                backend.calls == old(backend.calls) && r == Failure(TypeInitialization(typeState.cause))
      ensures typeState.Initialised? ==>
                backend.calls == old(backend.calls) + [CuGetLastErrorMessage]
                && r == Success(backend.lastErrorMessageReply(backend.calls))
    {
      if typeState.InitialisationFailed? {
        return Failure(TypeInitialization(typeState.cause));
      }
      var message := backend.cuGetLastErrorMessage();
      return Success(message);
    }

    method GetIndices(octreeNodeHandle: uint32) returns (r: Result<array<uint16>, CubiquityException>)
      requires Valid()
      modifies backend
      ensures CountThenFetch(old(backend.calls), backend.calls, CuGetNoOfIndices(octreeNodeHandle),
                             CuGetIndices(octreeNodeHandle), backend.indicesReply, r)
      ensures r.Success? ==> fresh(r.value)
    {
      if typeState.InitialisationFailed? {
        return Failure(TypeInitialization(typeState.cause));
      }
      var code, noOfIndices := backend.cuGetCount(CuGetNoOfIndices(octreeNodeHandle));
      var v := Validate(code);
      if v.Fail? {
        return Failure(v.error);
      }
      var result := new uint16[noOfIndices];
      code, result := backend.cuGetIndices(CuGetIndices(octreeNodeHandle));
      v := Validate(code);
      if v.Fail? {
        return Failure(v.error);
      }
      return Success(result);
    }

    method GetVertices(octreeNodeHandle: uint32) returns (r: Result<array<ColoredCubesVertex>, CubiquityException>)
      requires Valid()
      modifies backend
      ensures CountThenFetch(old(backend.calls), backend.calls, CuGetNoOfVertices(octreeNodeHandle),
                             CuGetVertices(octreeNodeHandle), backend.coloredCubesVerticesReply, r)
      ensures r.Success? ==> fresh(r.value)
    {
      if typeState.InitialisationFailed? {
        return Failure(TypeInitialization(typeState.cause));
      }
      var code, noOfVertices := backend.cuGetCount(CuGetNoOfVertices(octreeNodeHandle));
      var v := Validate(code);
      if v.Fail? {
        return Failure(v.error);
      }
      var result := new ColoredCubesVertex[noOfVertices];
      code, result := backend.cuGetVertices(octreeNodeHandle);
      v := Validate(code);
      if v.Fail? {
        return Failure(v.error);
      }
      return Success(result);
    }

    method GetIndicesMC(octreeNodeHandle: uint32) returns (r: Result<array<uint16>, CubiquityException>)
      requires Valid()
      modifies backend
      ensures CountThenFetch(old(backend.calls), backend.calls, CuGetNoOfIndicesMC(octreeNodeHandle),
                             CuGetIndicesMC(octreeNodeHandle), backend.indicesReply, r)
      ensures r.Success? ==> fresh(r.value)
    {
      if typeState.InitialisationFailed? {
        return Failure(TypeInitialization(typeState.cause));
      }
      var code, noOfIndices := backend.cuGetCount(CuGetNoOfIndicesMC(octreeNodeHandle));
      var v := Validate(code);
      if v.Fail? {
        return Failure(v.error);
      }
      var result := new uint16[noOfIndices];
      code, result := backend.cuGetIndices(CuGetIndicesMC(octreeNodeHandle));
      v := Validate(code);
      if v.Fail? {
        return Failure(v.error);
      }
      return Success(result);
    }

    method GetVerticesMC(octreeNodeHandle: uint32) returns (r: Result<array<TerrainVertex>, CubiquityException>)
      requires Valid()
      modifies backend
      ensures CountThenFetch(old(backend.calls), backend.calls, CuGetNoOfVerticesMC(octreeNodeHandle),
                             CuGetVerticesMC(octreeNodeHandle), backend.terrainVerticesReply, r)
      ensures r.Success? ==> fresh(r.value)
    {
      if typeState.InitialisationFailed? {
        return Failure(TypeInitialization(typeState.cause));
      }
      var code, noOfVertices := backend.cuGetCount(CuGetNoOfVerticesMC(octreeNodeHandle));
      var v := Validate(code);
      if v.Fail? {
        return Failure(v.error);
      }
      var result := new TerrainVertex[noOfVertices];
      code, result := backend.cuGetVerticesMC(octreeNodeHandle);
      v := Validate(code);
      if v.Fail? {
        return Failure(v.error);
      }
      return Success(result);
    }
  }
}
