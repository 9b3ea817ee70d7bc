/**
 * The screen router: one current screen out of welcome, upload, questions
 * and results. Moving on from the upload and questions screens is gated on
 * the store's status fields; restarting also resets the store.
 */
module ScreenRouter {

  import opened TaskStore

  datatype Screen = Welcome | Upload | Questions | Results

  /**
   * `renderCurrentScreen`: the screen drawn for a screen value. The value is
   * typed as one of the four names, so the default case is reached only by a
   * value outside that type; it draws the welcome screen.
   */
  function Render(name: string): (s: Screen)
    ensures s == Upload <==> name == "upload"
    ensures s == Questions <==> name == "questions"
    ensures s == Results <==> name == "results"
    ensures s == Welcome <==> name != "upload" && name != "questions" && name != "results"
  {
    match name
    case "welcome" => Welcome
    case "upload" => Upload
    case "questions" => Questions
    case "results" => Results
    case _ => Welcome
  }

  /** The router's state: the current screen, and the store whose statuses gate it. */
  class Router {
    var screen: Screen
    const store: Store

    constructor (store: Store)
      ensures screen == Welcome && this.store == store
    {
      screen := Welcome;
      this.store := store;
    }

    /** `handleStartTest`. */
    method HandleStartTest()
      modifies this
      ensures screen == Upload
    {
      screen := Upload;
    }

    /** `handlePhotosUploaded`: moves on only once the upload has succeeded. */
    method HandlePhotosUploaded()
      modifies this
      ensures screen == if store.uploadStatus == Succeeded then Questions else old(screen)
    {
      if store.uploadStatus == Succeeded {
        screen := Questions;
      }
    }

    /** `handleQuestionsCompleted`: moves on only once the survey submission has succeeded. */
    method HandleQuestionsCompleted()
      modifies this
      ensures screen == if store.submitStatus == Succeeded then Results else old(screen)
    {
      if store.submitStatus == Succeeded {
        screen := Results;
      }
    }

    /** `handleRestart`: back to the welcome screen, with the store reset. */
    method HandleRestart()
      modifies this, store
      ensures screen == Welcome
      ensures store.State() == Initial
    {
      screen := Welcome;
      store.ResetTest();
    }
  }
}
