/** The settings of one game session (`GameParameters`). */
module Parameters {

  /**
   * Secret length in digits, attempts allowed, seconds per attempt. The
   * fields are public and assigned one by one, so this is an object, not a
   * value: whether two of them are the same object is observable.
   */
  class GameParameters {
    var secretLength: int
    var maxAttempts: int
    var timeToGuess: int

    /** A fresh object holds the defaults: 4 digits, 10 attempts, 30 seconds. */
    constructor()
      ensures secretLength == 4 && maxAttempts == 10 && timeToGuess == 30
    {
      secretLength := 4;
      maxAttempts := 10;
      timeToGuess := 30;
    }
  }
}
