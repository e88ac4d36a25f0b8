/**
 * The menu's settings toggles: the volume steps through a fixed cycle and the language
 * switches between English and Russian; both persist through the `GameState` record.
 */
module Menu {
  import opened Config

  /** The volumes the toggle cycles through. */
  predicate OnCycle(v: int) {
    v == 0 || v == 25 || v == 50 || v == 100
  }

  /** The next volume of the cycle 100, 0, 25, 50; any other volume goes back to full. */
  function NextVolume(v: int): (r: int)
    ensures OnCycle(r)
    ensures r == 100 <==> !(v == 100 || v == 0 || v == 25)
    ensures r < 100 ==> r == (if v == 100 then 0 else v + 25)
  {
    if v == 100 then 0
    else if v == 0 then 25
    else if v == 25 then 50
    else 100
  }

  /** Four presses from any volume of the cycle come back to it, and no fewer do. */
  lemma VolumeCycle(v: int)
    requires OnCycle(v)
    ensures NextVolume(NextVolume(NextVolume(NextVolume(v)))) == v
    ensures NextVolume(v) != v && NextVolume(NextVolume(v)) != v
    ensures NextVolume(NextVolume(NextVolume(v))) != v
  {
  }

  /** From any stored volume, one press lands on the cycle and four more return there. */
  lemma VolumeJoinsCycle(v: int)
    ensures OnCycle(NextVolume(v))
    ensures NextVolume(NextVolume(NextVolume(NextVolume(NextVolume(v))))) == NextVolume(v)
  {
    VolumeCycle(NextVolume(v));
  }

  /** `'en'` becomes `'ru'`; any other language becomes `'en'`. */
  function NextLang(l: string): (r: string)
    ensures r == "en" || r == "ru"
    ensures r == "ru" <==> l == "en"
  {
    if l == "en" then "ru" else "en"
  }

  /** Two presses restore English or Russian. */
  lemma LangCycle(l: string)
    requires l == "en" || l == "ru"
    ensures NextLang(NextLang(l)) == l && NextLang(l) != l
  {
  }

  /** `toggleVolume`: the next volume of the cycle is saved. */
  method ToggleVolume(state: GameState)
    modifies state
    ensures state.volume == NextVolume(old(state.volume))
    ensures state.lang == old(state.lang) && state.highScore == old(state.highScore)
    ensures state.difficulty == old(state.difficulty)
  {
    var v := NextVolume(state.volume);
    state.SaveVolume(v);
  }

  /** `toggleLang`: the other language is saved. */
  method ToggleLang(state: GameState)
    modifies state
    ensures state.lang == NextLang(old(state.lang))
    ensures state.volume == old(state.volume) && state.highScore == old(state.highScore)
    ensures state.difficulty == old(state.difficulty)
  {
    state.SaveLang(NextLang(state.lang));
  }
}
