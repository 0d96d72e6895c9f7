/** The upload box: an extension and size check on a chosen file, and the small
    state it keeps (the accepted file and the error shown). */
module FileUpload {
  import opened Wrappers
  import opened Types
  import opened Text

  const DefaultAcceptedTypes: seq<string> := [".stl", ".3mf"]
  const DefaultMaxSize: nat := 50  // MB

  const Mebibyte: nat := 1024 * 1024

  /** `s.slice(start)` for a start index that may be negative (counted from the end). */
  function SliceFrom(s: string, start: int): (r: string)
    ensures 0 <= start <= |s| ==> r == s[start..]
    ensures start < 0 && |s| > 0 ==> |r| <= -start
    ensures start < 0 ==> r == s[|s| - (if -start < |s| then -start else |s|)..]
  {
    var k := if start < 0 then (if |s| + start < 0 then 0 else |s| + start)
             else if start > |s| then |s| else start;
    s[k..]
  }

  /** `name.toLowerCase().slice(name.lastIndexOf('.'))` */
  function Extension(name: string): string
  {
    SliceFrom(ToLower(name), LastIndexOf(name, '.'))
  }

  /** Lower-casing commutes with dropping a prefix. */
  lemma LowerSuffix(s: string, i: nat)
    requires i <= |s|
    ensures ToLower(s)[i..] == ToLower(s[i..])
  {
    var l := ToLower(s)[i..];
    var r := ToLower(s[i..]);
    assert |l| == |r|;
    forall k | 0 <= k < |l|
      ensures l[k] == r[k]
    {
      assert l[k] == ToLowerChar(s[i + k]);
    }
  }

  /** With a dot, the extension is the lower-cased text from the last dot on: it
      starts with the dot and holds no other. */
  lemma ExtensionFromLastDot(name: string)
    requires '.' in name
    ensures var i := LastIndexOf(name, '.');
      Extension(name) == ToLower(name[i..]) && |Extension(name)| >= 1 &&
      Extension(name)[0] == '.' && forall k :: 1 <= k < |Extension(name)| ==> Extension(name)[k] != '.'
  {
    var i := LastIndexOf(name, '.');
    var t := name[i..];
    LowerSuffix(name, i);
    var e := ToLower(t);
    assert Extension(name) == e;
    forall k | 1 <= k < |e|
      ensures e[k] != '.'
    {
      assert t[k] == name[i + k];
    }
  }

  /** Without a dot, `lastIndexOf` gives -1 and the "extension" is the lower-cased
      last character (empty for an empty name). */
  lemma ExtensionWithoutDot(name: string)
    requires '.' !in name
    ensures |name| > 0 ==> Extension(name) == [ToLowerChar(name[|name| - 1])]
    ensures |Extension(name)| <= 1
  {
    var lower := ToLower(name);
    if |name| > 0 {
      assert Extension(name) == lower[|name| - 1..];
    }
  }

  /** Lower-casing the name first does not change its extension. */
  lemma ExtensionIgnoresCase(name: string)
    ensures Extension(ToLower(name)) == Extension(name)
  {
    LowerIdempotent(name);
    LastDotSurvivesLowering(name);
  }

  lemma LowerIdempotent(s: string)
    ensures ToLower(ToLower(s)) == ToLower(s)
  {
    var l := ToLower(s);
    var ll := ToLower(l);
    forall k | 0 <= k < |s|
      ensures ll[k] == l[k]
    {
    }
  }

  lemma LastDotSurvivesLowering(name: string)
    ensures LastIndexOf(ToLower(name), '.') == LastIndexOf(name, '.')
  {
    var lower := ToLower(name);
    assert forall k :: 0 <= k < |name| ==> (lower[k] == '.' <==> name[k] == '.');
    if '.' in name {
      var i := LastIndexOf(name, '.');
      assert lower[i] == '.';
    } else {
      assert '.' !in lower;
    }
  }

  datatype Verdict = Accepted | TypeNotSupported | TooLarge

  /** `validateFile`'s decision: the type is checked before the size, and a file
      exactly at the limit passes. */
  function Validate(acceptedTypes: seq<string>, maxSize: nat, file: FileRef): (v: Verdict)
    ensures v == TypeNotSupported <==> Extension(file.name) !in acceptedTypes
    ensures v == TooLarge <==> Extension(file.name) in acceptedTypes && file.size > maxSize * Mebibyte
    ensures v == Accepted <==> Extension(file.name) in acceptedTypes && file.size <= maxSize * Mebibyte
  {
    if Extension(file.name) !in acceptedTypes then TypeNotSupported
    else if file.size > maxSize * Mebibyte then TooLarge
    else Accepted
  }

  /** The error text `validateFile` leaves behind. */
  function ErrorMessage(v: Verdict, acceptedTypes: seq<string>, maxSize: nat): (msg: string)
    ensures msg == "" <==> v == Accepted
  {
    match v
    case Accepted => ""
    case TypeNotSupported => "File type not supported. Please upload: " + Join(acceptedTypes, ", ")
    case TooLarge => "File too large. Maximum size: " + NatToString(maxSize) + "MB"
  }

  /** Upper-case names pass: the check compares the lower-cased extension. */
  lemma UpperCaseNameAccepted(size: nat)
    requires size <= DefaultMaxSize * Mebibyte
    ensures Validate(DefaultAcceptedTypes, DefaultMaxSize, FileRef("MODEL.STL", size)) == Accepted
  {
    UpperCaseExtension();
  }

  lemma UpperCaseExtension()
    ensures Extension("MODEL.STL") == ".stl"
  {
    var name := "MODEL.STL";
    LastDotOfModelName();
    LowerSuffix(name, 5);
    assert name[5..] == ".STL";
    LowerSuffixExample();
  }

  lemma LastDotOfModelName()
    ensures LastIndexOf("MODEL.STL", '.') == 5
  {
    var name := "MODEL.STL";
    assert name[5] == '.' && name[6] == 'S' && name[7] == 'T' && name[8] == 'L';
  }

  lemma LowerSuffixExample()
    ensures ToLower(".STL") == ".stl"
  {
    assert ToLower(".STL") == [ToLowerChar('.')] + ToLower("STL");
    assert ToLower("STL") == [ToLowerChar('S')] + ToLower("TL");
    assert ToLower("TL") == [ToLowerChar('T')] + ToLower("L");
    assert ToLower("L") == [ToLowerChar('L')] + ToLower("");
  }

  /** A name without a dot has a one-character "extension" and so is refused
      under the default types. */
  lemma NoDotRejected(name: string, size: nat, maxSize: nat)
    requires '.' !in name
    ensures Validate(DefaultAcceptedTypes, maxSize, FileRef(name, size)) == TypeNotSupported
  {
    ExtensionWithoutDot(name);
    var e := Extension(name);
    assert |e| <= 1 < |".stl"| && |".3mf"| > 1;
    assert e !in DefaultAcceptedTypes;
  }

  /** The size bound: for a file of an accepted type, it is accepted exactly when its
      size is at most the limit, and the type is checked first. */
  lemma SizeLimit(acceptedTypes: seq<string>, maxSize: nat, name: string, size: nat)
    requires Extension(name) in acceptedTypes
    ensures Validate(acceptedTypes, maxSize, FileRef(name, maxSize * Mebibyte)) == Accepted
    ensures Validate(acceptedTypes, maxSize, FileRef(name, maxSize * Mebibyte + 1)) == TooLarge
    ensures size <= maxSize * Mebibyte <==> Validate(acceptedTypes, maxSize, FileRef(name, size)) == Accepted
  {
  }

  lemma DefaultMessages()
    ensures ErrorMessage(TypeNotSupported, DefaultAcceptedTypes, DefaultMaxSize) ==
      "File type not supported. Please upload: .stl, .3mf"
    ensures ErrorMessage(TooLarge, DefaultAcceptedTypes, DefaultMaxSize) ==
      "File too large. Maximum size: 50MB"
  {
    assert NatToString(50) == "50";
    assert Join(DefaultAcceptedTypes, ", ") == ".stl" + ", " + Join([".3mf"], ", ");
  }

  /** What the parent's `onFileSelect` receives, if it is called at all. */
  datatype Notification = NoCall | Called(file: Option<FileRef>)

  class FileUploadState {
    const acceptedTypes: seq<string>
    const maxSize: nat
    var selectedFile: Option<FileRef>
    var error: string

    constructor (acceptedTypes: seq<string>, maxSize: nat)
      ensures this.acceptedTypes == acceptedTypes && this.maxSize == maxSize
      ensures selectedFile == None && error == ""
    {
      this.acceptedTypes := acceptedTypes;
      this.maxSize := maxSize;
      selectedFile := None;
      error := "";
    }

    /** `validateFile`: answers the verdict and sets the error text to match it. */
    method ValidateFile(file: FileRef) returns (ok: bool)
      modifies this
      ensures ok <==> Validate(acceptedTypes, maxSize, file) == Accepted
      ensures error == ErrorMessage(Validate(acceptedTypes, maxSize, file), acceptedTypes, maxSize)
      ensures selectedFile == old(selectedFile)
    {
      var extension := Extension(file.name);
      if extension !in acceptedTypes {
        error := ErrorMessage(TypeNotSupported, acceptedTypes, maxSize);
        return false;
      }
      if file.size > maxSize * 1024 * 1024 {
        error := ErrorMessage(TooLarge, acceptedTypes, maxSize);
        return false;
      }
      error := ErrorMessage(Accepted, acceptedTypes, maxSize);
      return true;
    }

    /** `handleFileSelect`: a valid file becomes the selection and is passed on; an
        invalid one changes only the error text and the parent hears nothing. */
    method HandleFileSelect(file: FileRef) returns (note: Notification)
      modifies this
      ensures var v := Validate(acceptedTypes, maxSize, file);
        error == ErrorMessage(v, acceptedTypes, maxSize) &&
        (v == Accepted ==> selectedFile == Some(file) && note == Called(Some(file))) &&
        (v != Accepted ==> selectedFile == old(selectedFile) && note == NoCall)
    {
      var ok := ValidateFile(file);
      if ok {
        selectedFile := Some(file);
        note := Called(Some(file));
      } else {
        note := NoCall;
      }
    }

    /** `removeFile`: clears the selection and the error and tells the parent. */
    method RemoveFile() returns (note: Notification)
      modifies this
      ensures selectedFile == None && error == "" && note == Called(None)
    {
      selectedFile := None;
      note := Called(None);
      error := "";
    }
  }
}
