/** The receipt upload middleware (server/middelwares/upload.js): the image-only
    file filter, the 5 MB size limit, and the stored file name
    `<Date.now()>-<Math.round(Math.random() * 1e9)><extension>` under `uploads/`.
    The clock reading and the rounded random number are parameters. */
module Upload {
  import opened Common
  import Text

  const AllowedMimeTypes: set<string> := {"image/jpeg", "image/png", "image/jpg"}
  const MaxFileSize: nat := 5 * 1024 * 1024
  const FilterMessage := "Only image files are allowed (jpeg, jpg, png)."
  /** The message of multer's LIMIT_FILE_SIZE error. */
  const TooLargeMessage := "File too large"
  const Destination := "uploads/"
  /** `Math.round(Math.random() * 1e9)` lies in 0 ..= 1e9. */
  const MaxRandom: nat := 1_000_000_000

  datatype IncomingFile = IncomingFile(originalname: string, mimetype: string, size: nat)
  datatype UploadResult = Stored(filename: string, path: string) | Rejected(message: string)

  // ---------------------------------------------------------------- decimal text of a number

  function DigitChar(d: nat): (c: char)
    requires d < 10
    ensures '0' <= c <= '9' && (c as int) - ('0' as int) == d
  {
    (('0' as int) + d) as char
  }

  /** `String(n)` for a non-negative integer. */
  function Digits(n: nat): (r: string)
    ensures |r| >= 1
    ensures forall k :: 0 <= k < |r| ==> '0' <= r[k] <= '9'
    decreases n
  {
    if n < 10 then [DigitChar(n)] else Digits(n / 10) + [DigitChar(n % 10)]
  }

  /** The value of a string of decimal digits. */
  function DigitsValue(s: string): int
  {
    if s == [] then 0 else 10 * DigitsValue(s[..|s| - 1]) + ((s[|s| - 1] as int) - ('0' as int))
  }

  lemma {:induction false} DigitsRoundTrip(n: nat)
    ensures DigitsValue(Digits(n)) == n
    decreases n
  {
    if n >= 10 {
      DigitsRoundTrip(n / 10);
      var s := Digits(n);
      assert s[..|s| - 1] == Digits(n / 10);
    }
  }

  // ---------------------------------------------------------------- path.extname

  function LastIndex(s: string, c: char): (r: Option<nat>)
    ensures r.Some? ==> r.value < |s| && s[r.value] == c && c !in s[r.value + 1..]
    ensures r.None? ==> c !in s
  {
    if s == [] then None
    else if s[|s| - 1] == c then Some(|s| - 1)
    else
      var r := LastIndex(s[..|s| - 1], c);
      assert s == s[..|s| - 1] + [s[|s| - 1]];
      r
  }

  /** The last path segment. */
  function BaseName(s: string): (r: string)
    ensures '/' !in r && |r| <= |s| && r == s[|s| - |r|..]
  {
    match LastIndex(s, '/')
    case None => s
    case Some(i) => s[i + 1..]
  }

  /** A suffix of a suffix of `s` is a suffix of `s`. */
  lemma SuffixOfSuffix(s: string, b: string, d: nat)
    requires |b| <= |s| && b == s[|s| - |b|..] && d <= |b|
    ensures b[d..] == s[|s| - |b[d..]|..]
  {
  }

  /** `path.extname`: from the last '.' of the last segment to the end, except
      when that '.' is the segment's first character or the segment is "..". */
  function ExtName(s: string): (r: string)
    ensures r == [] || (r[0] == '.' && '.' !in r[1..] && '/' !in r)
    ensures |r| <= |s| && r == s[|s| - |r|..]
  {
    var b := BaseName(s);
    match LastIndex(b, '.')
    case None => ""
    case Some(d) =>
      if d == 0 || b == ".." then "" else
        SuffixOfSuffix(s, b, d);
        b[d..]
  }

  lemma ExtNameOfStem(stem: string, ext: string)
    requires stem != [] && '/' !in stem && '/' !in ext && '.' !in ext && ext != []
    ensures ExtName(stem + "." + ext) == "." + ext
  {
    var s := stem + "." + ext;
    assert '/' !in s;
    assert BaseName(s) == s;
    assert s[|stem|] == '.' && s[|stem| + 1..] == ext;
    var d := LastIndex(s, '.');
    assert d == Some(|stem|);
    assert s[|stem|..] == "." + ext;
  }

  // ---------------------------------------------------------------- the middleware

  /** The `filename` callback of the disk storage engine. */
  function FileName(now: nat, random: nat, originalname: string): (r: string)
    ensures Digits(now) + "-" <= r
    ensures |ExtName(originalname)| <= |r| && r[|r| - |ExtName(originalname)|..] == ExtName(originalname)
  {
    var front := Digits(now) + "-" + Digits(random);
    assert (front + ExtName(originalname))[|front|..] == ExtName(originalname);
    front + ExtName(originalname)
  }

  /** The stored name is the upload time, a dash, and then the rest. */
  lemma FileNameShape(now: nat, random: nat, originalname: string)
    ensures FileName(now, random, originalname) == Digits(now) + ['-'] + (Digits(random) + ExtName(originalname))
  {
  }

  /** Splitting the stored name at its dashes gives the upload time first. */
  lemma FileNameHead(now: nat, random: nat, originalname: string)
    ensures Text.Split(FileName(now, random, originalname), '-')[0] == Digits(now)
  {
    FileNameShape(now, random, originalname);
    assert '-' !in Digits(now);
    Text.SplitAtFirst(Digits(now), '-', Digits(random) + ExtName(originalname));
  }

  /** The stored name ends with the original extension. */
  lemma FileNameKeepsExtension(now: nat, random: nat, originalname: string)
    ensures var name := FileName(now, random, originalname);
      var ext := ExtName(originalname);
      |ext| <= |name| && name[|name| - |ext|..] == ext
  {
    var name := FileName(now, random, originalname);
    var front := Digits(now) + "-" + Digits(random);
    assert name == front + ExtName(originalname);
    assert name[|front|..] == ExtName(originalname);
  }

  /** The stored name starts with the upload time and keeps the original extension,
      so names of files uploaded at different times never collide. */
  lemma FileNameParts(now: nat, random: nat, originalname: string)
    ensures Text.Split(FileName(now, random, originalname), '-')[0] == Digits(now)
    ensures Digits(now) + "-" <= FileName(now, random, originalname)
    ensures var name := FileName(now, random, originalname);
      var ext := ExtName(originalname);
      |ext| <= |name| && name[|name| - |ext|..] == ext
  {
    FileNameHead(now, random, originalname);
    FileNameShape(now, random, originalname);
    FileNameKeepsExtension(now, random, originalname);
  }

  lemma DistinctTimesDistinctNames(now1: nat, now2: nat, r1: nat, r2: nat, n1: string, n2: string)
    requires now1 != now2
    ensures FileName(now1, r1, n1) != FileName(now2, r2, n2)
  {
    FileNameParts(now1, r1, n1);
    FileNameParts(now2, r2, n2);
    DigitsRoundTrip(now1);
    DigitsRoundTrip(now2);
  }

  /** One file passing through `upload.single(...)`: the file filter runs first,
      then the size limit; an accepted file is written under `uploads/`. */
  function Accept(file: IncomingFile, now: nat, random: nat): (r: UploadResult)
    requires random <= MaxRandom
    ensures r.Stored? <==> file.mimetype in AllowedMimeTypes && file.size <= MaxFileSize
    ensures file.mimetype !in AllowedMimeTypes ==> r == Rejected(FilterMessage)
    ensures file.mimetype in AllowedMimeTypes && file.size > MaxFileSize ==> r == Rejected(TooLargeMessage)
    ensures r.Stored? ==>
      r.path == Destination + r.filename && r.filename == FileName(now, random, file.originalname)
  {
    if file.mimetype !in AllowedMimeTypes then Rejected(FilterMessage)
    else if file.size > MaxFileSize then Rejected(TooLargeMessage)
    else
      var name := FileName(now, random, file.originalname);
      Stored(name, Destination + name)
  }
}
