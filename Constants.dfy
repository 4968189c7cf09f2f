/** The authorization data of constants.ts and facts about it. These facts are
    what keep the App's VIN invariants true for the two ways a value reaches
    the VIN field without passing the keystroke filter: picking an entry from
    the list panel and the scanner's result. */
module Constants {
  import opened VinEntry

  /** `AUTHORIZED_VINS`, in source order. */
  const AuthorizedVins: seq<string> := [
    "1HGCM82633A004352",
    "2HGCM82633A004353",
    "3HGCM82633A004354",
    "4HGCM82633A004355",
    "5HGCM82633A004356",
    "VF33A9HZC83456789",
    "WVWZZZ1KZEW123456",
    "WBA3B31000K123456",
    "ZAR94000007123456",
    "8A1AC22X0L1234567"
  ]

  /** The value the scanner stub reports when a capture is simulated. */
  const ScannerStubVin: string := "1HGCM82633A004352"

  /** The list holds ten entries, each exactly 17 characters long. */
  lemma EntriesHaveVinLength()
    ensures |AuthorizedVins| == 10
    ensures forall i :: 0 <= i < |AuthorizedVins| ==> |AuthorizedVins[i]| == VinLength
  {
  }

  /** Every entry is made of `[A-Z0-9]` only, so the keystroke filter leaves it
      unchanged and it fits the VIN field. */
  lemma EntriesAreVinText()
    ensures forall i :: 0 <= i < |AuthorizedVins| ==>
      IsVinText(AuthorizedVins[i]) && Filter(AuthorizedVins[i]) == AuthorizedVins[i]
  {
    forall i | 0 <= i < |AuthorizedVins|
      ensures IsVinText(AuthorizedVins[i]) && Filter(AuthorizedVins[i]) == AuthorizedVins[i]
    {
      FilterKeepsVinText(AuthorizedVins[i]);
    }
  }

  /** No VIN is listed twice. */
  lemma EntriesAreDistinct()
    ensures forall i, j :: 0 <= i < j < |AuthorizedVins| ==> AuthorizedVins[i] != AuthorizedVins[j]
  {
  }

  /** The scanner stub's VIN is the first entry of the list. */
  lemma ScannerStubIsListed()
    ensures ScannerStubVin == AuthorizedVins[0]
    ensures ScannerStubVin in AuthorizedVins
  {
  }
}
