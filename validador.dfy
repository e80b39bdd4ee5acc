/** The amount rules every balance mutation checks before it changes anything
    (`ValidadorTransaccion`). Each rule passes or fails with the error the Java
    code throws. */
module Validador {
  import opened Comun

  /** `validarMontoPositivo`: an amount must be strictly positive. */
  function ValidarMontoPositivo(monto: real): (r: Outcome<Error>)
    ensures r.Fail? <==> monto <= 0.0
    ensures r.Fail? ==> r.error == MontoNoPositivo
  {
    if monto <= 0.0 then Fail(MontoNoPositivo) else Pass
  }

  /** `validarRetiro`: the amount is positive and at most the balance; the
      positivity rule is checked first, and an overdraft reports both the
      balance available and the amount requested. */
  function ValidarRetiro(saldoActual: real, montoRetiro: real): (r: Outcome<Error>)
    ensures r.Pass? <==> 0.0 < montoRetiro <= saldoActual
    ensures montoRetiro <= 0.0 ==> r == Fail(MontoNoPositivo)
    ensures 0.0 < montoRetiro && saldoActual < montoRetiro ==>
              r == Fail(FondosInsuficientes(saldoActual, montoRetiro))
  {
    match ValidarMontoPositivo(montoRetiro)
    case Fail(e) => Fail(e)
    case Pass =>
      if montoRetiro > saldoActual then Fail(FondosInsuficientes(saldoActual, montoRetiro))
      else Pass
  }

  /** `validarDeposito`: the positivity rule and nothing else. */
  function ValidarDeposito(montoDeposito: real): (r: Outcome<Error>)
    ensures r.Pass? <==> montoDeposito > 0.0
    ensures r.Fail? ==> r.error == MontoNoPositivo
  {
    ValidarMontoPositivo(montoDeposito)
  }

  /** `validarTransferencia`: a transfer obeys the withdrawal rules on the
      source balance. */
  function ValidarTransferencia(saldoOrigen: real, montoTransferencia: real): (r: Outcome<Error>)
    ensures r.Pass? <==> 0.0 < montoTransferencia <= saldoOrigen
    ensures montoTransferencia <= 0.0 ==> r == Fail(MontoNoPositivo)
    ensures 0.0 < montoTransferencia && saldoOrigen < montoTransferencia ==>
              r == Fail(FondosInsuficientes(saldoOrigen, montoTransferencia))
  {
    ValidarRetiro(saldoOrigen, montoTransferencia)
  }

  /** The deposit rule accepts and rejects exactly the amounts the positivity
      rule does, with the same error. */
  lemma DepositoEsMontoPositivo(monto: real)
    ensures ValidarDeposito(monto) == ValidarMontoPositivo(monto)
  {
  }

  /** A transfer is validated exactly like a withdrawal of the same amount
      from the same balance. */
  lemma TransferenciaEsRetiro(saldo: real, monto: real)
    ensures ValidarTransferencia(saldo, monto) == ValidarRetiro(saldo, monto)
  {
  }
}
