/** The `multerFilter` callback that `categoryController`, `projectController`,
    `userController` and `clientController` each define with the same body:
    a file is accepted when its MIME type starts with `image`, otherwise
    the upload fails with a 400 `AppError`. */
module Upload {
  import opened Js
  import opened Express

  datatype FilterOutcome = Accept | Reject(error: AppError)

  const NotAnImage := AppError("Not an image! Please upload only images.", 400)

  /** `cb(null, true)` or `cb(new AppError(..., 400), false)`. */
  function ImageFilter(mimetype: string): (r: FilterOutcome)
    ensures r == Accept <==> StartsWith(mimetype, "image")
    ensures r != Accept ==> r == Reject(NotAnImage)
  {
    if StartsWith(mimetype, "image") then Accept else Reject(NotAnImage)
  }

  /** The test is a bare prefix: any type beginning with the five letters
      passes, whatever follows them, and a type that only contains them
      later does not. */
  lemma PrefixDecides(suffix: string, prefix: string)
    requires prefix != [] && prefix[0] != 'i'
    ensures ImageFilter("image" + suffix) == Accept
    ensures ImageFilter(prefix + "image") == Reject(NotAnImage)
  {
    assert ("image" + suffix)[..5] == "image";
    if |prefix + "image"| >= 5 {
      assert (prefix + "image")[0] == prefix[0];
    }
  }
}
