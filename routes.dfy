/** The places the front end navigates to. */
module Routes {
  /**
   * `Search(q)` is `/search?q=<encodeURIComponent(q)>`; the search page reads
   * `q` back with `URLSearchParams.get`, which undoes the encoding exactly.
   * `Path(p)` is any other path.
   */
  datatype Route = Search(query: string) | Path(path: string)

  const Home := Path("/")
  const LoginPage := Path("/login")
  const SignupPage := Path("/signup")
  const MusicPage := Path("/music")
}
