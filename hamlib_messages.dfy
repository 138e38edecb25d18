/** The Hamlib rig-state record the agent forwards. */
module HamlibMessages {
  /** Model name, dial frequency (Hz) and mode of the current VFO, and the passband width (Hz). */
  datatype HamlibRigState = HamlibRigState(
    model: string, frequency: int, mode: string, passbandWidthHz: int)
}
