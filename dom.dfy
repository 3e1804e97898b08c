/** The pieces of browser state the components mutate: the class lists of the
    `html` and `body` elements, the body's `overflow` style and local storage.
    One page object is shared by every component, so a style written by one
    component is seen by the others. */
module Dom {

  class Page {
    var htmlClasses: set<string>
    var bodyClasses: set<string>
    var bodyOverflow: string
    var localStorage: map<string, string>

    constructor (storage: map<string, string>)
      ensures htmlClasses == {} && bodyClasses == {}
      ensures bodyOverflow == "" && localStorage == storage
    {
      htmlClasses := {};
      bodyClasses := {};
      bodyOverflow := "";
      localStorage := storage;
    }
  }
}
