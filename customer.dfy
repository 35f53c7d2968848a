/**
 * A customer record with an optional credit account. The account does not
 * exist until it is created once; afterwards its balance moves by signed
 * amounts. The balance is a Python float in `customer.py`; the model uses
 * `real`.
 */
module Customers {
  import opened Common

  class Customer {
    var name: string
    var email: string
    var phone: string
    /** `None` while the object has no `credit` attribute. */
    var credit: Option<real>

    constructor (name: string, email: string, phone: string)
      ensures this.name == name && this.email == email && this.phone == phone
      ensures credit == None
    {
      this.name := name;
      this.email := email;
      this.phone := phone;
      credit := None;
    }

    /** `__str__`: name, email and phone separated by `" - "`. */
    function ToString(): (r: string)
      reads this
      ensures |r| == |name| + |email| + |phone| + 6
      ensures r[..|name|] == name && r[|name|..|name| + 3] == " - "
      ensures r[|name| + 3..|name| + 3 + |email|] == email
      ensures r[|name| + 3 + |email|..|name| + 6 + |email|] == " - "
      ensures r[|r| - |phone|..] == phone
    {
      DisplayLayout(name, email, phone);
      Display(name, email, phone)
    }

    /** `has_credit_account`: whether the `credit` attribute exists, whatever its balance. */
    predicate HasCreditAccount(): (r: bool)
      reads this
      ensures r <==> credit != None
    {
      credit.Some?
    }

    /** Opens the account with balance 0, only if there is none yet. */
    method CreateCreditAccount() returns (created: bool)
      modifies this
      ensures created <==> !old(HasCreditAccount())
      ensures HasCreditAccount()
      ensures credit == if created then Some(0.0) else old(credit)
      ensures name == old(name) && email == old(email) && phone == old(phone)
    {
      if HasCreditAccount() {
        return false;
      } else {
        credit := Some(0.0);
        return true;
      }
    }

    /** Adds `amount` (negative to subtract) to the balance; refused without an account. */
    method ModifyCredit(amount: real) returns (modified: bool)
      modifies this
      ensures modified <==> old(HasCreditAccount())
      ensures HasCreditAccount() <==> old(HasCreditAccount())
      ensures credit == if modified then Some(old(credit).value + amount) else old(credit)
      ensures name == old(name) && email == old(email) && phone == old(phone)
    {
      if HasCreditAccount() {
        credit := Some(credit.value + amount);
        return true;
      } else {
        return false;
      }
    }
  }

  /** How a customer is shown: name, email and phone separated by `" - "`. */
  function Display(name: string, email: string, phone: string): string {
    name + " - " + email + " - " + phone
  }

  /** Where each field and separator sits in the shown text. */
  lemma DisplayLayout(name: string, email: string, phone: string)
    ensures var s := Display(name, email, phone);
      && |s| == |name| + |email| + |phone| + 6
      && s[..|name|] == name
      && s[|name|..|name| + 3] == " - "
      && s[|name| + 3..|name| + 3 + |email|] == email
      && s[|name| + 3 + |email|..|name| + 6 + |email|] == " - "
      && s[|s| - |phone|..] == phone
  {
  }

  lemma DemoDisplayText()
    ensures Display("John Doe", "john.doe@example.com", "1234567890")
         == "John Doe - john.doe@example.com - 1234567890"
  {
  }

  /** Step 1 of the demonstration script: how the first customer is shown. */
  method DemoDisplay() returns (shown: string, hasAccount: bool)
    ensures shown == "John Doe - john.doe@example.com - 1234567890"
    ensures !hasAccount
  {
    var customer := new Customer("John Doe", "john.doe@example.com", "1234567890");
    shown := customer.ToString();
    hasAccount := customer.HasCreditAccount();
    DemoDisplayText();
  }

  /**
   * Steps 2 to 10 of the demonstration script: what it observes for two
   * customers, the first of whom opens an account and moves it by +100,
   * +50 and -25.
   */
  method DemoScript()
    returns (hadAccount: bool, earlyModify: bool, created: bool, hasAccount: bool,
             balances: seq<real>, secondHasAccount: bool, secondModify: bool)
    ensures !hadAccount && !earlyModify
    ensures created && hasAccount
    ensures balances == [100.0, 150.0, 125.0]
    ensures !secondHasAccount && !secondModify
  {
    var customer := new Customer("John Doe", "john.doe@example.com", "1234567890");
    hadAccount := customer.HasCreditAccount();
    earlyModify := customer.ModifyCredit(100.0);
    created := customer.CreateCreditAccount();
    hasAccount := customer.HasCreditAccount();
    balances := [];
    var ok := customer.ModifyCredit(100.0);
    balances := balances + [customer.credit.value];
    ok := customer.ModifyCredit(50.0);
    balances := balances + [customer.credit.value];
    ok := customer.ModifyCredit(-25.0);
    balances := balances + [customer.credit.value];
    var customer2 := new Customer("Jane Smith", "jane.smith@example.com", "0987654321");
    secondHasAccount := customer2.HasCreditAccount();
    secondModify := customer2.ModifyCredit(200.0);
  }
}
