/** The decorator demo: a file reader wrapped by readers that each prepend
    their own word to whatever the wrapped reader returns. */
module Decorator {

  datatype Reader =
    | FileReader
    | BufferedReader(reader: Reader)
    | DecryptReader(reader: Reader)

  const FileData: string := "data from file"
  const BufferedPrefix: string := "buffered "
  const DecryptedPrefix: string := "decrypted "

  /** The words the decorators around the file reader add, outermost first. */
  function Prefixes(r: Reader): string {
    match r
    case FileReader => ""
    case BufferedReader(inner) => BufferedPrefix + Prefixes(inner)
    case DecryptReader(inner) => DecryptedPrefix + Prefixes(inner)
  }

  /** What a reader returns: the file's data, behind the prefixes of every
      decorator around it, outermost first. The ensures state one unfolding
      step per reader kind, the shape the inductive lemmas below follow;
      the closed form is ReadIsPrefixesThenData. */
  function Read(r: Reader): (data: string)
    ensures r.FileReader? ==> data == FileData
    ensures r.BufferedReader? ==> data == BufferedPrefix + Read(r.reader)
    ensures r.DecryptReader? ==> data == DecryptedPrefix + Read(r.reader)
  {
    match r
    case FileReader => FileData
    case BufferedReader(inner) => BufferedPrefix + Read(inner)
    case DecryptReader(inner) => DecryptedPrefix + Read(inner)
  }

  /** A reader's output is exactly the decorators' words, outermost first,
      followed by the file's data. */
  lemma {:induction false} ReadIsPrefixesThenData(r: Reader)
    ensures Read(r) == Prefixes(r) + FileData
  {
    match r
    case FileReader =>
    case BufferedReader(inner) =>
      ReadIsPrefixesThenData(inner);
      assert BufferedPrefix + (Prefixes(inner) + FileData) == (BufferedPrefix + Prefixes(inner)) + FileData;
    case DecryptReader(inner) =>
      ReadIsPrefixesThenData(inner);
      assert DecryptedPrefix + (Prefixes(inner) + FileData) == (DecryptedPrefix + Prefixes(inner)) + FileData;
  }

  /** How many decorators wrap the file reader. */
  function Depth(r: Reader): nat {
    match r
    case FileReader => 0
    case BufferedReader(inner) => 1 + Depth(inner)
    case DecryptReader(inner) => 1 + Depth(inner)
  }

  /** A decorator keeps the wrapped reader's output as a suffix and adds
      exactly the length of its own prefix. */
  lemma DecoratorKeepsSuffix(r: Reader)
    requires !r.FileReader?
    ensures Read(r)[|Read(r)| - |Read(r.reader)|..] == Read(r.reader)
    ensures r.BufferedReader? ==> |Read(r)| == |Read(r.reader)| + 9
    ensures r.DecryptReader? ==> |Read(r)| == |Read(r.reader)| + 10
  {
  }

  /** Every reader's output ends with the file's data. */
  lemma {:induction false} EndsWithFileData(r: Reader)
    ensures |Read(r)| >= |FileData|
    ensures Read(r)[|Read(r)| - |FileData|..] == FileData
  {
    match r
    case FileReader =>
    case BufferedReader(inner) =>
      EndsWithFileData(inner);
      assert Read(r)[|Read(r)| - |Read(inner)|..] == Read(inner);
    case DecryptReader(inner) =>
      EndsWithFileData(inner);
      assert Read(r)[|Read(r)| - |Read(inner)|..] == Read(inner);
  }

  /** The output is at least nine characters longer for every decorator and
      at most ten. */
  lemma {:induction false} LengthBounds(r: Reader)
    ensures |FileData| + 9 * Depth(r) <= |Read(r)| <= |FileData| + 10 * Depth(r)
  {
    match r
    case FileReader =>
    case BufferedReader(inner) => LengthBounds(inner);
    case DecryptReader(inner) => LengthBounds(inner);
  }

  /** The demo's two reads. */
  lemma DemoReads()
    ensures Read(BufferedReader(FileReader)) == "buffered data from file"
    ensures Read(DecryptReader(BufferedReader(FileReader))) == "decrypted buffered data from file"
  {
  }

  method Demo() returns (buffered: string, decrypted: string)
    ensures buffered == "buffered data from file"
    ensures decrypted == "decrypted buffered data from file"
  {
    var fileReader := FileReader;
    var bufferedReader := BufferedReader(fileReader);
    buffered := Read(bufferedReader);
    var decryptBufferedReader := DecryptReader(bufferedReader);
    decrypted := Read(decryptBufferedReader);
    DemoReads();
  }
}
