/** The application's routes that the core navigates to. */
module Routes {
  /** The sign-in page, reached after sign-out and after a registration. */
  const SigninRoute := "/sessions/signin"
}
