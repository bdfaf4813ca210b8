/**
 * The extension allow-list that main.py applies to uploaded images
 * (`allowed_file`): a name is accepted when it has a dot and the text after
 * its LAST dot, lower-cased, is one of png, jpg, jpeg, gif.
 */
module FileTypes {
  import opened Wrappers
  import opened Text

  const AllowedExtensions: set<string> := {"png", "jpg", "jpeg", "gif"}

  /** `filename.rsplit('.', 1)[1]`: the text after the last dot. */
  function Extension(filename: string): (ext: Option<string>)
    ensures ext.None? <==> '.' !in filename
    ensures ext.Some? ==> '.' !in ext.value && |ext.value| < |filename|
    ensures ext.Some? ==> filename[|filename| - |ext.value| - 1] == '.'
    ensures ext.Some? ==> filename[|filename| - |ext.value|..] == ext.value
  {
    match LastIndexOf(filename, '.')
    case None => None
    case Some(i) => Some(filename[i + 1..])
  }

  /** `allowed_file`: an accepted name ends in a dot and three or four more characters. */
  predicate AllowedFile(filename: string): (ok: bool)
    ensures ok ==> 4 <= |filename|
    ensures ok ==> filename[|filename| - 4] == '.' || (5 <= |filename| && filename[|filename| - 5] == '.')
  {
    '.' in filename && Lower(Extension(filename).value) in AllowedExtensions
  }

  /**
   * A name is accepted exactly when it splits as base + "." + ext with no dot
   * in ext and ext, lower-cased, on the allow-list.
   */
  lemma AllowedFileIff(filename: string)
    ensures AllowedFile(filename) <==>
      exists i :: 0 <= i < |filename| && filename[i] == '.' && '.' !in filename[i + 1..]
                  && Lower(filename[i + 1..]) in AllowedExtensions
  {
    if AllowedFile(filename) {
      var ext := Extension(filename).value;
      var i := |filename| - |ext| - 1;
      assert filename[i + 1..] == ext;
    }
    if exists i :: 0 <= i < |filename| && filename[i] == '.' && '.' !in filename[i + 1..]
                   && Lower(filename[i + 1..]) in AllowedExtensions {
      var i :| 0 <= i < |filename| && filename[i] == '.' && '.' !in filename[i + 1..]
               && Lower(filename[i + 1..]) in AllowedExtensions;
      LastDotUnique(filename, i);
    }
  }

  /** Only the last dot counts: the extension after a dot-free tail is that tail. */
  lemma LastDotUnique(filename: string, i: nat)
    requires i < |filename| && filename[i] == '.' && '.' !in filename[i + 1..]
    ensures Extension(filename) == Some(filename[i + 1..])
  {
    var j := LastIndexOf(filename, '.').value;
    forall k | i < k < |filename| ensures filename[k] != '.' {
      assert filename[k] == filename[i + 1..][k - i - 1];
    }
    forall k | j < k < |filename| ensures filename[k] != '.' {
      assert filename[k] == filename[j + 1..][k - j - 1];
    }
  }

  /**
   * The verdict on base + "." + ext depends on ext alone: "A.PNG" is accepted,
   * "x.png.exe" is rejected.
   */
  lemma AllowedFileByLastExtension(base: string, ext: string)
    requires '.' !in ext
    ensures AllowedFile(base + "." + ext) <==> Lower(ext) in AllowedExtensions
  {
    var f := base + "." + ext;
    assert f[|base| + 1..] == ext;
    LastDotUnique(f, |base|);
  }

  lemma UpperCaseExtensionAccepted()
    ensures AllowedFile("A.PNG")
  {
    AllowedFileByLastExtension("A", "PNG");
    assert Lower("PNG") == "png";
  }

  lemma DoubleExtensionRejected()
    ensures !AllowedFile("x.png.exe")
  {
    AllowedFileByLastExtension("x.png", "exe");
    assert Lower("exe") == "exe";
  }

  lemma NameWithoutDotRejected(filename: string)
    requires '.' !in filename
    ensures !AllowedFile(filename)
  {
  }
}
